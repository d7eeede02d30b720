# SPACE corporate landing site — a verified model of its content and admin core

SPACE is an exhibitions and conferences company. Its site has five parts,
all built on a hosted store with five tables: admin users, content sections,
content history, media assets and site settings. The store also holds the
auth session.

- A public landing page that renders the published content sections.
- An admin login page.
- An admin dashboard that edits content, users, media and settings.
- Three server-side handlers:
  - SEO and performance reports;
  - site analytics and health;
  - media reference management.

This project models the logic of those parts in Dafny and proves what each
part promises.

The project has nine modules:

- **Values.** JSON values as the store returns them, and the JavaScript
  semantics the code relies on:
  - truthiness and `||`;
  - `.length`, `includes`, `toLowerCase`, `substring` and `split(...).pop()`;
  - `String(n)`.
- **Tables.** The rows of the five tables, and the filters the site's
  queries apply to them.
- **Store.** A `Database` class holding the five tables and the session.
  Every page method that writes to the store modifies it.
- **AdminDashboard.** Role gating of user management, the add-user checks,
  and content writes with version numbers and history. Also the publish
  toggle, media soft delete, settings writes and upload paths. A
  `Dashboard` class carries the page state.
- **SeoPerformance.** The five-check SEO score and its letter grade, the
  XML sitemap, content suggestions, the media performance audit, meta tags
  with their fallback chains, robots.txt and routing.
- **AdminAnalytics.**
  - content, media and user statistics, including the category histogram
    and the recent-upload and recent-login lists;
  - the health check, JPEG advice, the SEO audit and routing.
- **MediaManagement.**
  - merging a new image URL into one section;
  - replacing one media reference across every section;
  - the media usage index;
  - method and action dispatch.
- **PublicPage.** The content and settings maps the landing page loads,
  its defaults, and the scroll-driven active section. A `Page` class
  carries the page state.
- **AdminLogin.** The first-user rule, the sign-in gate and its
  `last_login` stamp, the redirect check, and the mode switch. A `Login`
  class carries the page state.

Code that works step by step is modelled as methods with loops. This
covers the score accumulation, the sitemap string, the `needsUpdate` loop,
the usage dictionary, the map-filling `forEach` loops and the scroll
handler's early `break`. Each such method is proved equal to a recursive
specification function, and lemmas state the source's promises about that
function.

Calls whose results the code cannot control become parameters:

- store and auth failures and answers;
- clocks, and `Date` formatting;
- the browser layout.

## Model

| member | source | states |
|---|---|---|
| Values.Prop | src/pages/Index.tsx:275 | reading `o.k` gives a value exactly when the key is present, and that value is `o[k]` |
| Values.Or | src/pages/Index.tsx:275-286 | `a \|\| b` is `a` when `a` is truthy, otherwise `b` |
| Values.Lower | supabase/edge_function/seo_performance_2026_02_13_18_00.ts:120 | lower-casing keeps the length |
| Values.ContainsIff | supabase/edge_function/seo_performance_2026_02_13_18_00.ts:120-131 | `includes(p)` holds iff `p` occurs at some position |
| Values.Take | supabase/edge_function/seo_performance_2026_02_13_18_00.ts:241 | `substring(0, n)` is a prefix of length min(\|s\|, n) |
| Values.AfterLastIsSuffix | src/pages/AdminDashboard.tsx:408 | `split(sep).pop()` is a suffix with no separator, preceded by a separator when there is one, and the whole string when there is none |
| Values.AfterLastOfJoin | src/pages/AdminDashboard.tsx:408-410 | the part after the last separator of `a + sep + b` is `b` when `b` has no separator |
| Values.BeforeFirst | src/pages/AdminDashboard.tsx:410 | the part before the first separator is no longer than the string |
| Values.BeforeFirstOfJoin | src/pages/AdminDashboard.tsx:410 | the part before the first separator of `a + sep + b` is `a` when `a` has no separator |
| Values.DigitsRoundTrip | src/pages/AdminDashboard.tsx:409 | the decimal rendering of a number is non-empty, all digits, and reads back as the number |
| Values.DecimalHasNoDot | src/pages/AdminDashboard.tsx:409-410 | a rendered integer holds no `.` and no `/` |
| Tables.Published | supabase/edge_function/seo_performance_2026_02_13_18_00.ts:29 | the `is_published` filter keeps exactly the published rows |
| Tables.ActiveAssets | src/pages/AdminDashboard.tsx:175 | the `is_active` filter keeps exactly the active assets |
| Tables.PublishedAppend | supabase/edge_function/seo_performance_2026_02_13_18_00.ts:29 | the `is_published` filter keeps table order: it distributes over concatenation |
| Tables.ActiveAssetsAppend | src/pages/AdminDashboard.tsx:175 | the `is_active` filter keeps table order: it distributes over concatenation |
| Tables.ActiveAdminRows | src/pages/AdminLogin.tsx:29-34 | the query keeps exactly the rows of that user that are active |
| Tables.ActiveAdminFor | src/pages/AdminLogin.tsx:55-60 | `.single()` gives a row iff exactly one matches, and that row is this user's and active |
| Tables.TotalSizeBounds | supabase/edge_function/seo_performance_2026_02_13_18_00.ts:165 | with non-negative sizes, the total (a missing size counts 0) is non-negative and at least each asset's size |
| AdminDashboard.CanManageUser | src/pages/AdminDashboard.tsx:393-400 | false with no current admin; a super admin manages every role; an admin manages editors only; an editor manages nobody |
| AdminDashboard.ShowsManageControls | src/pages/AdminDashboard.tsx:661 | controls appear only for other users whose role the current admin can manage, never to editors |
| AdminDashboard.RoleChoices | src/pages/AdminDashboard.tsx:610-620 | editor is always offered, admin only to super admins, super admin never |
| AdminDashboard.CheckNewUser | src/pages/AdminDashboard.tsx:203-219 | accepted iff email, name and password are filled and the password has at least 6 characters; a missing field is reported before a short password |
| AdminDashboard.FindSection | src/pages/AdminDashboard.tsx:323 | a found section is a loaded row with that key |
| AdminDashboard.FindSectionNone | src/pages/AdminDashboard.tsx:323 | nothing is found iff no loaded row has the key |
| AdminDashboard.FindFirstAt | src/pages/AdminDashboard.tsx:323 | the first row with the key is the one found |
| AdminDashboard.FindIndex | src/pages/AdminDashboard.tsx:323 | the found row sits at an index with no earlier row carrying the key |
| AdminDashboard.NextVersion | src/pages/AdminDashboard.tsx:323 | 1 when the key is not loaded, else the loaded version + 1 (never 0) |
| AdminDashboard.WriteContent | src/pages/AdminDashboard.tsx:318-325 | rows with the key get the content, author and version; every other row is unchanged |
| AdminDashboard.WriteContentFirstRow | src/pages/AdminDashboard.tsx:318-325 | after the write, the first row with the key carries the new version and content |
| AdminDashboard.SaveStep | src/pages/AdminDashboard.tsx:316-338 | one save raises the loaded version by one and appends one history row with that version |
| AdminDashboard.EntriesCons | src/pages/AdminDashboard.tsx:327-338 | the history rows of several saves start with the first save's row |
| AdminDashboard.EntriesAt | src/pages/AdminDashboard.tsx:327-338 | the k-th appended history row records the k-th content with version v0 + k + 1 |
| AdminDashboard.EntriesLength | src/pages/AdminDashboard.tsx:327-338 | n saves append n history rows |
| AdminDashboard.SavesBumpVersion | src/pages/AdminDashboard.tsx:316-338 | n successive saves of a loaded key raise its version by n |
| AdminDashboard.SavesAppendHistory | src/pages/AdminDashboard.tsx:327-338 | n successive saves append exactly the n expected history rows, in order |
| AdminDashboard.SetPublished | src/pages/AdminDashboard.tsx:747-751 | only `is_published` of the row with that id changes |
| AdminDashboard.ToggleTwiceRestores | src/pages/AdminDashboard.tsx:745-762 | with unique ids, toggling a section twice restores the table |
| AdminDashboard.SoftDelete | src/pages/AdminDashboard.tsx:847-850 | only `is_active` of the asset with that id becomes false |
| AdminDashboard.SoftDeleteHidesOnlyThatAsset | src/pages/AdminDashboard.tsx:175 | after a soft delete, the active list is the old active list without that asset |
| AdminDashboard.SetUserActive | src/pages/AdminDashboard.tsx:269-272 | only `is_active` of the admin row with that id changes |
| AdminDashboard.RemoveUser | src/pages/AdminDashboard.tsx:293-296 | exactly the rows with that id are removed |
| AdminDashboard.SetSetting | src/pages/AdminDashboard.tsx:357-363 | every row with the key gets the value; others are unchanged |
| AdminDashboard.UploadPathExtension | src/pages/AdminDashboard.tsx:408-410 | the upload path keeps the file's extension |
| AdminDashboard.UploadPathFolder | src/pages/AdminDashboard.tsx:403-410 | the path's folder is the category, `general` by default |
| AdminDashboard.UploadPathFileName | src/pages/AdminDashboard.tsx:409-410 | the path's last segment is `<timestamp>.<ext>` |
| AdminDashboard.ExtensionIsWholeName | src/pages/AdminDashboard.tsx:408 | the extension is the whole name exactly when the name has no dot |
| AdminDashboard.Dashboard.constructor | src/pages/AdminDashboard.tsx:80-100 | no user, no admin row, empty add-user form, role editor, dialog closed |
| AdminDashboard.Dashboard.MediaList | src/pages/AdminDashboard.tsx:170-176 | the media tab lists exactly the active assets |
| AdminDashboard.Dashboard.CheckAuth | src/pages/AdminDashboard.tsx:108-151 | no session leads to the login page; a session without one active admin row is signed out; otherwise the row is kept and nothing in the store changes |
| AdminDashboard.Dashboard.AddNewUser | src/pages/AdminDashboard.tsx:202-265 | a rejected form writes nothing; an auth or insert failure writes nothing; success appends one active row with the chosen role and resets the form |
| AdminDashboard.Dashboard.ToggleUserStatus | src/pages/AdminDashboard.tsx:267-289 | the row's active flag becomes the negation of the shown one, unless the write fails |
| AdminDashboard.Dashboard.DeleteUser | src/pages/AdminDashboard.tsx:291-314 | the admin row is removed, unless the write fails |
| AdminDashboard.Dashboard.UpdateContent | src/pages/AdminDashboard.tsx:316-353 | the content write uses the next version; a failed write appends no history; a successful one appends exactly one `update` row |
| AdminDashboard.Dashboard.TogglePublish | src/pages/AdminDashboard.tsx:745-759 | only the section's published flag flips; versions and history stay |
| AdminDashboard.Dashboard.DeleteMedia | src/pages/AdminDashboard.tsx:845-858 | a soft delete that hides exactly that asset from the media list |
| AdminDashboard.Dashboard.UpdateSiteSettings | src/pages/AdminDashboard.tsx:355-380 | every row with the key gets the new value, unless the write fails |
| AdminDashboard.Dashboard.UploadFile | src/pages/AdminDashboard.tsx:403-458 | no file or a failure adds nothing; otherwise one active asset is added under `<category>/<timestamp>.<ext>` |
| SeoPerformance.AnyContentPrefix | supabase/edge_function/seo_performance_2026_02_13_18_00.ts:280 | a section that throws in a prefix makes the whole run throw |
| SeoPerformance.AnyContentIff | supabase/edge_function/seo_performance_2026_02_13_18_00.ts:280 | the run throws iff some section's content throws |
| SeoPerformance.SectionScoreBounds | supabase/edge_function/seo_performance_2026_02_13_18_00.ts:283-321 | score + missed points = 50; one issue per failed check; full marks iff no issue |
| SeoPerformance.TotalScoreBounds | supabase/edge_function/seo_performance_2026_02_13_18_00.ts:284-321 | the total lies between 0 and 50 per section, with equality iff there are no issues |
| SeoPerformance.Percent | supabase/edge_function/seo_performance_2026_02_13_18_00.ts:325 | 0 without points; otherwise the integer nearest 100·score/max (halves up), in [0, 100] for a valid score, and 100 at full marks |
| SeoPerformance.PercentBounds | supabase/edge_function/seo_performance_2026_02_13_18_00.ts:325 | the rounded percentage stays within [0, 100] |
| SeoPerformance.GradeMonotone | supabase/edge_function/seo_performance_2026_02_13_18_00.ts:336 | a higher percentage never gets a worse grade |
| SeoPerformance.SeoScore | supabase/edge_function/seo_performance_2026_02_13_18_00.ts:268-340 | throws iff a section makes the keyword check throw; otherwise score, maximum = 50·sections, the issues in order, percentage and grade |
| SeoPerformance.ScoreReportBounds | supabase/edge_function/seo_performance_2026_02_13_18_00.ts:325-336 | the percentage is in [0, 100]; it is 0 with no sections and 100 with grade A when nothing fails |
| SeoPerformance.SectionUrl | supabase/edge_function/seo_performance_2026_02_13_18_00.ts:46-53 | a section's entry is its anchor under the base URL, dated by its update time |
| SeoPerformance.SectionUrlsAppend | supabase/edge_function/seo_performance_2026_02_13_18_00.ts:44-55 | the entries of two runs of rows are those of the first followed by those of the second |
| SeoPerformance.SectionUrlsCover | supabase/edge_function/seo_performance_2026_02_13_18_00.ts:44-55 | one entry per published section other than `home`, at its anchor, and none for any other section |
| SeoPerformance.SectionsXmlIsUrls | supabase/edge_function/seo_performance_2026_02_13_18_00.ts:44-55 | the `<url>` text appended for the published sections is the rendering of their sitemap entries, in order |
| SeoPerformance.SitemapUrls | supabase/edge_function/seo_performance_2026_02_13_18_00.ts:34-56 | the base URL dated today comes first, then the section entries |
| SeoPerformance.GenerateSitemap | supabase/edge_function/seo_performance_2026_02_13_18_00.ts:24-69 | the document is the header, the `<url>` elements of the sitemap entries in order, then the closing tag |
| SeoPerformance.SitemapXmlIsUrls | supabase/edge_function/seo_performance_2026_02_13_18_00.ts:34-59 | the header, the root element and the section elements together render the whole entry list |
| SeoPerformance.SitemapListsPublishedSections | supabase/edge_function/seo_performance_2026_02_13_18_00.ts:34-59 | 1 + (published, non-home sections) entries; each listed section's anchor appears; every entry after the root is a listed section |
| SeoPerformance.SectionSuggestions | supabase/edge_function/seo_performance_2026_02_13_18_00.ts:109-139 | at most 3 suggestions; each kind is present iff its rule fires (short description, no "event" in title, no "contact" in description) |
| SeoPerformance.AllSuggestionsBound | supabase/edge_function/seo_performance_2026_02_13_18_00.ts:105-140 | at most three suggestions per section overall |
| SeoPerformance.OptimizeContent | supabase/edge_function/seo_performance_2026_02_13_18_00.ts:95-151 | throws iff some section's `toLowerCase` throws; otherwise all suggestions in order and the number of sections |
| SeoPerformance.LargePngFlaggedTwice | supabase/edge_function/seo_performance_2026_02_13_18_00.ts:168-185 | a PNG over 1 MiB is flagged both as large and for its format |
| SeoPerformance.FlagsNeedSize | supabase/edge_function/seo_performance_2026_02_13_18_00.ts:168-185 | large-image iff an image type over 1,048,576; format iff a PNG over 512,000; nothing at or under 500 KiB |
| SeoPerformance.AuditAsset | supabase/edge_function/seo_performance_2026_02_13_18_00.ts:168-185 | the checks on one asset yield its issues, large-image first, at most two |
| SeoPerformance.PerformanceAudit | supabase/edge_function/seo_performance_2026_02_13_18_00.ts:153-224 | the issues of every active asset in order, the four fixed recommendations, and the total size with missing sizes counted as 0 |
| SeoPerformance.DescriptionTag | supabase/edge_function/seo_performance_2026_02_13_18_00.ts:241 | the own tag when truthy; else the first 160 characters of a non-empty string description; else the default; throws for a non-string, non-null description |
| SeoPerformance.SectionMetaTags | supabase/edge_function/seo_performance_2026_02_13_18_00.ts:239-249 | `twitter_card` is always `summary_large_image`; the tags throw iff one of the three description chains throws |
| SeoPerformance.SectionMetaTitles | supabase/edge_function/seo_performance_2026_02_13_18_00.ts:240-247 | title, keywords, og title, twitter title and og image each take the first truthy field of their chain (`title`; `keywords`; `og_title` then `title`; `twitter_title` then `title`; `og_image` then `hero_image`) and otherwise the site default |
| SeoPerformance.SectionMetaDescriptions | supabase/edge_function/seo_performance_2026_02_13_18_00.ts:241-248 | each of the three descriptions is its own field when truthy, else the first 160 characters of a truthy string `description`, else the default blurb |
| SeoPerformance.KeyedMapLastWins | supabase/edge_function/seo_performance_2026_02_13_18_00.ts:236-250 | one key per section key, holding the value of the last section with that key |
| SeoPerformance.KeyedMapKeys | supabase/edge_function/seo_performance_2026_02_13_18_00.ts:236-250 | the map's keys are exactly the section keys |
| SeoPerformance.KeyedMapValues | supabase/edge_function/seo_performance_2026_02_13_18_00.ts:236-250 | the last section with a key supplies that key's value |
| SeoPerformance.MetaMapLastWins | supabase/edge_function/seo_performance_2026_02_13_18_00.ts:236-250 | each published key maps to the tags of its last section |
| SeoPerformance.GenerateMetaTags | supabase/edge_function/seo_performance_2026_02_13_18_00.ts:226-261 | throws iff some section's tags throw; otherwise the keyed tag map |
| SeoPerformance.Route | supabase/edge_function/seo_performance_2026_02_13_18_00.ts:21-345 | OPTIONS is the preflight; each of the five POST body actions reaches exactly its own handler, GET `seo_score` reaches the score, and anything else is invalid |
| SeoPerformance.Status | supabase/edge_function/seo_performance_2026_02_13_18_00.ts:343-355 | 400 for an invalid request, 500 when the action throws, 200 exactly for the preflight and for an action that did not throw |
| AdminAnalytics.InsertDesc | supabase/edge_function/admin_analytics_2026_02_13_18_00.ts:86 | inserting into a newest-first list keeps it sorted and is a permutation |
| AdminAnalytics.SortDescSorted | supabase/edge_function/admin_analytics_2026_02_13_18_00.ts:86 | the sorted list is newest first |
| AdminAnalytics.SortDescPermutes | supabase/edge_function/admin_analytics_2026_02_13_18_00.ts:86 | the sorted list holds the same elements as the input, with the same multiplicities |
| AdminAnalytics.SortDescCorrect | supabase/edge_function/admin_analytics_2026_02_13_18_00.ts:86 | the sort orders its input and loses nothing |
| AdminAnalytics.Newest | supabase/edge_function/admin_analytics_2026_02_13_18_00.ts:86-87 | `sort().slice(0, n)` keeps at most n elements, all from the input |
| AdminAnalytics.NewestCorrect | supabase/edge_function/admin_analytics_2026_02_13_18_00.ts:86-87 | the kept elements are newest first, a sub-multiset of the input, and nothing left out is newer than anything kept |
| AdminAnalytics.Drafts | supabase/edge_function/admin_analytics_2026_02_13_18_00.ts:60 | exactly the unpublished sections |
| AdminAnalytics.PublishedPlusDrafts | supabase/edge_function/admin_analytics_2026_02_13_18_00.ts:58-60 | published + drafts = total |
| AdminAnalytics.LastUpdatedIsLatest | supabase/edge_function/admin_analytics_2026_02_13_18_00.ts:61-62 | the reported time is the latest update of any section, and absent only with no sections |
| AdminAnalytics.ContentAnalytics | supabase/edge_function/admin_analytics_2026_02_13_18_00.ts:57-63 | with rows: total is the row count, published is the count of published rows, published + drafts = total, and the last update is the newest `updated_at`; a failed query reports zero and no date |
| AdminAnalytics.RoundDiv | supabase/edge_function/admin_analytics_2026_02_13_18_00.ts:73-91 | `Math.round(x / d)`: the nearest integer, with halves rounded up |
| AdminAnalytics.CategoryHistogram | supabase/edge_function/admin_analytics_2026_02_13_18_00.ts:78-81 | the counting loop builds the category histogram |
| AdminAnalytics.CountInSnoc | supabase/edge_function/admin_analytics_2026_02_13_18_00.ts:80 | one more asset adds one to its own category's count only |
| AdminAnalytics.HistogramCounts | supabase/edge_function/admin_analytics_2026_02_13_18_00.ts:78-82 | exactly the categories present are keys, each with its number of assets (at least 1) |
| AdminAnalytics.MapSumRemove | supabase/edge_function/admin_analytics_2026_02_13_18_00.ts:78-82 | removing a category takes its count out of the sum |
| AdminAnalytics.MapSumBump | supabase/edge_function/admin_analytics_2026_02_13_18_00.ts:80 | counting one more asset raises the sum by one |
| AdminAnalytics.HistogramTotal | supabase/edge_function/admin_analytics_2026_02_13_18_00.ts:72-82 | the category counts sum to `total_assets` |
| AdminAnalytics.RecentUploads | supabase/edge_function/admin_analytics_2026_02_13_18_00.ts:85-93 | at most 10 uploads |
| AdminAnalytics.RecentUploadsNewestFirst | supabase/edge_function/admin_analytics_2026_02_13_18_00.ts:85-93 | newest first, and no omitted upload is newer than a listed one |
| AdminAnalytics.MediaAnalytics | supabase/edge_function/admin_analytics_2026_02_13_18_00.ts:71-94 | count, total size, histogram and recent uploads over the rows with `is_active` set, as the query filters them; defaults without data |
| AdminAnalytics.ActiveAdmins | supabase/edge_function/admin_analytics_2026_02_13_18_00.ts:103 | exactly the active admins |
| AdminAnalytics.LoggedIn | supabase/edge_function/admin_analytics_2026_02_13_18_00.ts:105 | exactly the admins with a `last_login` |
| AdminAnalytics.RecentLogins | supabase/edge_function/admin_analytics_2026_02_13_18_00.ts:104-112 | at most 5 entries |
| AdminAnalytics.RecentLoginsNewestFirst | supabase/edge_function/admin_analytics_2026_02_13_18_00.ts:104-112 | only admins with a login, newest first, and none omitted who signed in later than one listed |
| AdminAnalytics.UserAnalytics | supabase/edge_function/admin_analytics_2026_02_13_18_00.ts:101-113 | with rows: total is the row count and active is the count of active rows (so active ≤ total); at most five recent logins; a failed query reports zero and no logins |
| AdminAnalytics.Analytics | supabase/edge_function/admin_analytics_2026_02_13_18_00.ts:25-123 | the three blocks from the three queries; the media count is the number of active assets and equals the sum of the category counts |
| AdminAnalytics.Health | supabase/edge_function/admin_analytics_2026_02_13_18_00.ts:170-239 | overall is degraded iff a probe throws; storage is unhealthy on a throw, degraded without the bucket, healthy with it; two checks |
| AdminAnalytics.ActiveJpegs | supabase/edge_function/admin_analytics_2026_02_13_18_00.ts:250-251 | exactly the active `image/jpeg` assets |
| AdminAnalytics.AdviceFor | supabase/edge_function/admin_analytics_2026_02_13_18_00.ts:257-271 | advice iff the size exceeds 500 KiB; high priority iff it exceeds 1 MiB |
| AdminAnalytics.AllAdviceSound | supabase/edge_function/admin_analytics_2026_02_13_18_00.ts:256-272 | every piece of advice names an asset over 500 KiB, at most one per asset |
| AdminAnalytics.OptimizeImages | supabase/edge_function/admin_analytics_2026_02_13_18_00.ts:245-283 | advice over the rows that are active and `image/jpeg`, in order, and their number; every piece of advice names such an asset over 500 KiB |
| AdminAnalytics.SectionAudit | supabase/edge_function/admin_analytics_2026_02_13_18_00.ts:299-326 | medium for a missing or short meta description, high for a hero image without alt, low for a title over 60, in that order |
| AdminAnalytics.SeoAudit | supabase/edge_function/admin_analytics_2026_02_13_18_00.ts:285-338 | the issues of every published section, and the number audited |
| AdminAnalytics.AuditAgreesWithScore | supabase/edge_function/admin_analytics_2026_02_13_18_00.ts:309-326 | a section flagged for alt text or title length fails the matching score check; the alt issue is the exact negation of the alt check |
| AdminAnalytics.Route | supabase/edge_function/admin_analytics_2026_02_13_18_00.ts:21-344 | OPTIONS is the preflight; GET `analytics`, `backup`, `health` and POST `optimize_images`, `seo_audit` each reach exactly their own handler; everything else is a 400 |
| MediaManagement.MemberOf | supabase/edge_function/media_management_2026_02_13_18_00.ts:91 | reading a property throws exactly on a `null` item |
| MediaManagement.ApplyUpdate | supabase/edge_function/media_management_2026_02_13_18_00.ts:42-49 | rows with the key get the content, version + 1 and the time; others are unchanged |
| MediaManagement.ApplyAllVersions | supabase/edge_function/media_management_2026_02_13_18_00.ts:108-119 | a row's version rises by the number of writes to its key; untouched rows are unchanged |
| MediaManagement.MergeImage | supabase/edge_function/media_management_2026_02_13_18_00.ts:37-40 | only `imageField` is set to the new URL; every other key is unchanged |
| MediaManagement.RowsWithKey | supabase/edge_function/media_management_2026_02_13_18_00.ts:28-32 | exactly the rows with that key |
| MediaManagement.UpdateContentImage | supabase/edge_function/media_management_2026_02_13_18_00.ts:26-61 | fails unless exactly one row has the key and the write succeeds; on success returns the merge and writes it with version + 1; on failure changes nothing |
| MediaManagement.ReplaceFieldsExact | supabase/edge_function/media_management_2026_02_13_18_00.ts:79-86 | of the four image fields, exactly those strictly equal to `mediaId` become the new URL |
| MediaManagement.ReplaceItems | supabase/edge_function/media_management_2026_02_13_18_00.ts:90-95 | throws iff some item is `null`; otherwise one result per item |
| MediaManagement.ReplaceItem | supabase/edge_function/media_management_2026_02_13_18_00.ts:91-94 | a matching item gets both `image` and `imageUrl` set with its other keys kept; any other item is unchanged |
| MediaManagement.ReplaceItemsPointwise | supabase/edge_function/media_management_2026_02_13_18_00.ts:90-95 | each mapped item is the item itself or its replacement |
| MediaManagement.SectionUpdateMarks | supabase/edge_function/media_management_2026_02_13_18_00.ts:89-104 | a section is written iff it has an `items` array or a matching image field, under its own key |
| MediaManagement.PlannedCount | supabase/edge_function/media_management_2026_02_13_18_00.ts:99-104 | the number of planned writes is the number of marked sections |
| MediaManagement.MatchFields | supabase/edge_function/media_management_2026_02_13_18_00.ts:79-86 | the field loop replaces the matching fields and raises `needsUpdate` iff one matched |
| MediaManagement.PlanSection | supabase/edge_function/media_management_2026_02_13_18_00.ts:75-104 | one pass of the loop gives the section's planned write |
| MediaManagement.PlanReplacement | supabase/edge_function/media_management_2026_02_13_18_00.ts:71-105 | the loop collects the planned writes in section order, or the first error |
| MediaManagement.ApplyUpdates | supabase/edge_function/media_management_2026_02_13_18_00.ts:108-119 | writes are applied in order up to the first failure, which stays visible |
| MediaManagement.ReplaceWebsiteImage | supabase/edge_function/media_management_2026_02_13_18_00.ts:63-129 | a fetch or mapping error writes nothing; otherwise the planned writes are applied, and success reports the number of marked sections |
| MediaManagement.FieldEntries | supabase/edge_function/media_management_2026_02_13_18_00.ts:149-161 | a use is recorded for exactly the truthy image fields, under their value |
| MediaManagement.ItemImage | supabase/edge_function/media_management_2026_02_13_18_00.ts:165-166 | an item is listed iff it is an object with a truthy `image` or `imageUrl`, under `image` when that is truthy, else under `imageUrl` |
| MediaManagement.ItemEntries | supabase/edge_function/media_management_2026_02_13_18_00.ts:164-176 | throws iff some item is `null`; otherwise exactly one use per item with an image, under that image and field `items[i].image` |
| MediaManagement.IndexGroups | supabase/edge_function/media_management_2026_02_13_18_00.ts:153-159 | the index has exactly the used keys, each with all its uses in order |
| MediaManagement.RecordEntries | supabase/edge_function/media_management_2026_02_13_18_00.ts:153-174 | the pushes of one section extend the index with its entries |
| MediaManagement.MediaUsage | supabase/edge_function/media_management_2026_02_13_18_00.ts:137-187 | a query error or `null` item throws; otherwise the index of every section's uses |
| MediaManagement.UsageCoversFields | supabase/edge_function/media_management_2026_02_13_18_00.ts:147-161 | every truthy image field of every section is listed under its value with its (section, field) pair |
| MediaManagement.UsageCoversItems | supabase/edge_function/media_management_2026_02_13_18_00.ts:164-176 | every item with an image in every section's `items` array is listed under that image with its (section, `items[i].image`) pair |
| MediaManagement.Dispatch | supabase/edge_function/media_management_2026_02_13_18_00.ts:11-192 | OPTIONS is the preflight, GET lists the usages, POST `update_content_image` and `replace_website_image` each reach exactly their handler, another POST action is invalid, and any other method is not allowed |
| MediaManagement.StatusOf | supabase/edge_function/media_management_2026_02_13_18_00.ts:131-202 | 400 for an invalid action, 405 for another method, 500 iff a handler throws, 200 exactly for the preflight and a handler that did not throw |
| PublicPage.KeyMapLastWins | src/pages/Index.tsx:36-39 | the map has exactly the rows' keys, each holding the value of the last row with that key |
| PublicPage.KeyMapKeys | src/pages/Index.tsx:36-39 | the map's keys are exactly the rows' keys |
| PublicPage.KeyMapValues | src/pages/Index.tsx:36-39 | the last row with a key supplies that key's value |
| PublicPage.FillMap | src/pages/Index.tsx:36-39 | the `forEach` loop builds that map |
| PublicPage.HeroText | src/pages/Index.tsx:275-286 | the stored hero value when truthy, otherwise the fixed literal |
| PublicPage.LogoUrl | src/pages/Index.tsx:179-191 | `general.logoUrl` when truthy, else `./images/space_logo_20260101_120021.png` |
| PublicPage.FallbackHeroShown | src/pages/Index.tsx:57-68 | after a load error, the hero shows the fallback's title, call to action and description, which differs from the render-time default |
| PublicPage.StoredHeroWins | src/pages/Index.tsx:275-286 | a non-empty stored string replaces the default |
| PublicPage.FirstHit | src/pages/Index.tsx:87-99 | none iff no section holds the position; otherwise the first, in order, whose element holds it |
| PublicPage.FirstHitIs | src/pages/Index.tsx:90-97 | when the i-th id is the first hit, it is the selected one |
| PublicPage.Page.constructor | src/pages/Index.tsx:9-13 | menu closed, `home` active, empty maps, loading |
| PublicPage.Page.LoadContent | src/pages/Index.tsx:27-72 | the published key→content and key→value maps replace the old ones when their query returns rows; on an error only the fallback hero remains and settings stay |
| PublicPage.Page.ScrollToSection | src/pages/Index.tsx:75-82 | an existing element becomes active and closes the menu; otherwise nothing changes |
| PublicPage.Page.HandleScroll | src/pages/Index.tsx:86-100 | the first section whose band holds `scrollY + 100` becomes active; with none, nothing changes |
| PublicPage.Page.ToggleMenu | src/pages/Index.tsx:226 | the menu flips; nothing else changes |
| AdminLogin.IsFirstUser | src/pages/AdminLogin.tsx:97-102 | first iff the query failed or the admin table is empty |
| AdminLogin.NewAdminRole | src/pages/AdminLogin.tsx:123 | super admin iff first, editor otherwise, never admin |
| AdminLogin.OnlyFirstUserIsSuperAdmin | src/pages/AdminLogin.tsx:97-126 | with a working query, only sign-up into an empty table yields a super admin |
| AdminLogin.StampLogin | src/pages/AdminLogin.tsx:68-71 | `last_login` is set on exactly the rows of that auth user |
| AdminLogin.StampKeepsGate | src/pages/AdminLogin.tsx:55-71 | stamping a login never changes who passes the admin gate |
| AdminLogin.ActiveRowsAppend | src/pages/AdminLogin.tsx:118-126 | a new row joins its user's active rows exactly when it is active |
| AdminLogin.SignUpThenGate | src/pages/AdminLogin.tsx:55-60 | a new active row opens the gate only for a user with no active row before |
| AdminLogin.Login.constructor | src/pages/AdminLogin.tsx:12-17 | empty fields, sign-in mode, not loading |
| AdminLogin.Login.CheckAuth | src/pages/AdminLogin.tsx:24-40 | redirect iff there is a session and its user has one active admin row |
| AdminLogin.Login.SignIn | src/pages/AdminLogin.tsx:42-89 | succeeds iff the credentials work and one active admin row exists; otherwise the new session is signed out; `last_login` is stamped only after the gate passes, for that user's rows |
| AdminLogin.Login.SignUp | src/pages/AdminLogin.tsx:91-151 | one active row, super admin iff first, is appended only when the auth user is created and the insert succeeds; the form returns to sign-in only for the first user |
| AdminLogin.Login.ToggleMode | src/pages/AdminLogin.tsx:242-247 | the mode flips and email, password and full name are cleared |

## Left out

- Floating point: numbers are integers.
  - Sizes in MB with two decimals (`Math.round(x * 100) / 100`) are not modelled.
  - `Math.round` of the SEO percentage is modelled as exact rational rounding with halves up, not as double arithmetic.
- Dates are opaque integers:
  - `toISOString().split('T')[0]` is a parameter of the sitemap;
  - `Date.now()` and `new Date()` are parameters.
- Strings are Dafny character sequences:
  - `toLowerCase` lowers ASCII letters only;
  - lengths count characters rather than UTF-16 code units.
- Section content is a JSON object, never `null`. The code spreads and indexes it without checks, so a `null` content is not modelled.
- MediaManagement.ApplyUpdate, MediaManagement.UpdateContentImage, MediaManagement.ReplaceWebsiteImage: as written, both handlers set `version` to `supabaseClient.sql\`version + 1\`` (media_management_2026_02_13_18_00.ts:46 and :113). The supabase-js v2 client has no `sql` member, so evaluating that tagged template throws a TypeError inside the `try`. The handler then answers 500 before any write. So `update_content_image` fails after every successful fetch, and `replace_website_image` fails whenever it has a write to make. The model follows the evidently intended "stored version plus one" instead. The as-written outcome is the case `updateFails = true` of UpdateContentImage and `failAt = Some(0)` of ReplaceWebsiteImage: an error and no change to the table.
- AdminDashboard.Dashboard.AddNewUser, AdminDashboard.Dashboard.UploadFile: the inserts do not send `is_active` or `created_at` (src/pages/AdminDashboard.tsx:232-240 and :425-434). The model assumes the table's column defaults give `true` and the insert time. No file of the repository shows those defaults. AddNewUser also sends `created_by: user?.id`, which the model drops because AdminUser has no such field; no operation in the core reads it back.
- MediaManagement.UpdateContentImage, MediaManagement.ReplaceWebsiteImage: `mediaId` and `newImageUrl` are JSON values that are present in the body.
  - An absent `mediaId` (`undefined === undefined`) is not modelled.
  - A malformed request body (`req.json()` throwing, hence 500) is not modelled.
- MediaManagement.MediaUsage: the index is a Dafny map. JavaScript objects' inherited keys (`__proto__`, `constructor`) are not modelled.
- PublicPage.KeyMap: the `contentMap` and `settingsMap` objects are Dafny maps, so a section or setting key such as `__proto__` or `constructor` behaves as an ordinary key here, unlike in the source.
- SeoPerformance.KeyedMap: the `metaTags` object is a Dafny map, with the same gap for inherited keys.
- AdminAnalytics.CategoryHistogram, AdminAnalytics.HistogramCounts, AdminAnalytics.HistogramTotal: the `categories` object (admin_analytics_2026_02_13_18_00.ts:78-81) is a Dafny map with one count per category. In the source, `categories[c] || 0` also reads members inherited from `Object.prototype`. A category named `constructor`, `toString` or `valueOf` therefore gets a string instead of a count. An assignment to `__proto__` is not stored as a key. The counts and their sum to `total_assets` are proved only for categories that are not such names. The dashboard uploads only under `general` and `logos` (src/pages/AdminDashboard.tsx:785 and :805).
- Values.Length: `.length` of a JSON object reads as `undefined`. An object that carries its own `length` key has that value in the source, which this model does not follow.
- MediaManagement.ApplyUpdates: the writes are not atomic. A failure leaves earlier writes applied, and the model states exactly that.
- Concurrency is not modelled:
  - the dashboard's content write and history append are separate calls;
  - the dashboard computes the next version from its locally loaded, possibly stale rows;
  - racing first sign-ups both become super admin;
  - the public page refreshes every 30 seconds.
- AdminAnalytics.SortDesc: the comparators subtract timestamps. The model is a stable insertion sort, which matches JavaScript's stable `Array.prototype.sort`. Stability itself is not stated as a lemma.
- AdminAnalytics.Health: the database probe is a "throws" flag. The query's result is unused in the source.
- The analytics `backup` action copies three query results verbatim into the response. It has no logic beyond I/O and is not modelled.
- SeoPerformance.GenerateSitemap: section keys are placed in the XML unescaped, as in the source. Well-formedness of the document is not claimed.
- JSX rendering, toasts, redirects and loading spinners are not modelled. So are the dashboard's `JSON.parse`/`JSON.stringify` editor, and storage upload and `getPublicUrl`. Only their outcomes appear, as parameters.
- The following are not part of this model: `src/pages/Admin.tsx` (a legacy localStorage editor), `src/components/GitHubIntegration.tsx` (a simulated push), and the one-off administration and test scripts.
- AdminLogin.Login.SignUp: `auth.signUp` is taken not to open a session (e-mail confirmation is pending), so the session is unchanged.
