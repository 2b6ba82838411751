# huyblog in Dafny

A model of a personal bilingual (English/Vietnamese) blog. It covers both halves of the system:

- **The Express backend** (`backend/server.js`):
  - the GitHub deploy webhook's checks;
  - the Gemini-backed translation endpoint: validation, mapping of upstream failures to status codes, and stripping the code fence from the answer;
  - the REST handlers for posts, social links and the singleton bio document, over an in-memory store.
- **The React frontend**:
  - the data types (`src/types/blog.ts`);
  - the application shell's view state machine, blog filter, category list and category pages (`src/App.tsx`);
  - the admin dashboard's filter, editing state, toasts and confirmation dialog (`src/pages/AdminDashboard.tsx`);
  - the post, social-link and bio editors;
  - the language context, with its translation table and `t` lookup;
  - the home page's paragraph splitting and `[caption](url)` link scanner.

Code that updates state in place is modelled as classes whose methods name what they change:

- React state becomes the fields of `App.BlogContent`, `AdminDashboard.Dashboard`, `PostEditor.Editor`, `LinkEditor.Editor`, `BioEditor.Editor` and `LanguageContext.LanguageState`.
- The database becomes the fields of `ContentApi.Store`.
- A loop in the source becomes a method with a `while` loop: `HomePage.RenderBioParagraph` and `ContentApi.Store.List`.

Code that only computes a value is modelled as functions, with lemmas relating them.

Whatever the code cannot see is a parameter of the model:

- the HMAC digest, `JSON.parse`, `ObjectId.isValid`;
- the id the store generates, the current time;
- `new URL(...)`;
- the upstream Gemini reply;
- the file the browser reads;
- whether an awaited call succeeded.

The modules follow the source files:

| module | source |
|---|---|
| `Wrappers` | option and JSON values, JavaScript truthiness |
| `Strings` | `trim`, `includes`, `toLowerCase`, string `<=` |
| `Blog` | `src/types/blog.ts` |
| `PostSearch` | the filter pieces shared by the three post lists |
| `DeployWebhook`, `TranslateEndpoint`, `ContentApi` | `backend/server.js` |
| `App` | `src/App.tsx` |
| `AdminDashboard` | `src/pages/AdminDashboard.tsx` |
| `PostEditor` | `src/components/PostEditor.tsx` |
| `CategoryPage` | `src/components/CategoryPage.tsx` |
| `LinkEditor` | `src/components/SocialLinkEditor.tsx` |
| `BioEditor` | `src/components/BioEditor.tsx` |
| `LanguageContext` | `src/context/LanguageContext.tsx` |
| `HomePage` | `src/pages/HomePage.tsx` |

## Model

| member | source | states |
|---|---|---|
| Blog.ParseLanguage | src/types/blog.ts:1 | a string read as a language is that language's code |
| Blog.LanguageCodeRoundTrip | src/types/blog.ts:1 | each language's code reads back as the language, and only `en` and `vi` name a language |
| Blog.ParsePlatform | src/types/blog.ts:16 | a string read as a platform is that platform's name |
| Blog.PlatformsComplete | src/types/blog.ts:16 | there are exactly seven distinct platforms, and each platform's name reads back as the platform |
| Strings.TrimStart | src/components/SocialLinkEditor.tsx:35-36 | the result is a suffix of the input, what was dropped is all white space, and the result does not start with white space |
| Strings.TrimEnd | src/components/SocialLinkEditor.tsx:35-36 | the result is a prefix of the input, what was dropped is all white space, and the result does not end with white space |
| Strings.Trim | src/components/SocialLinkEditor.tsx:35-36 | a non-empty result neither starts nor ends with white space |
| Strings.TrimIsSlice | src/components/SocialLinkEditor.tsx:35-36 | for every string, the trimmed result is a slice of it with only white space before and after the slice |
| Strings.TrimEmptyIff | src/components/SocialLinkEditor.tsx:35-36 | `!s.trim()` holds exactly when `s` is all white space |
| Strings.Contains | src/App.tsx:73-76 | the left-to-right search answers true exactly when the needle occurs at some position |
| Strings.ContainsEmpty | src/App.tsx:72-76 | every string includes the empty string |
| Strings.Lower | src/App.tsx:73 | lower-casing keeps the length and maps each character on its own |
| Strings.LexLeReflexive | src/App.tsx:78-79 | `d <= d` holds for every date string |
| Strings.LexLeTotal | src/App.tsx:78-79 | any two strings are ordered one way or the other |
| Strings.LexLeAntisymmetric | src/App.tsx:78-79 | two strings ordered both ways are equal |
| Strings.LexLeTransitive | backend/server.js:191 | the string order is transitive |
| PostSearch.Filter | src/App.tsx:71-81 | the filter keeps exactly the accepted posts, in their order, each as many times as it occurs, and keeps everything when the test accepts every post |
| PostSearch.FilterSameTest | src/components/CategoryPage.tsx:22-31 | two tests that agree on every post select the same list |
| PostSearch.DateBoundsInclusive | src/App.tsx:78-79 | a post dated exactly on the from-date or on the to-date is kept |
| PostSearch.MentionsIgnoresCase | src/App.tsx:73-76 | a query and its lower-cased form find the same texts |
| DeployWebhook.Handle | backend/server.js:34-77 | a missing secret gives 503 and a missing signature gives 401; a signed body that is not a buffer gives 400 "Invalid body"; a verified body gives 400 "Invalid JSON" exactly when it does not parse; a delivery is accepted (not rejected) exactly when it has a buffer body, the exact `sha256=` HMAC signature and a payload that parses; ping answers pong exactly when accepted; an accepted push crashes exactly on a null payload, is ignored as "not main branch" exactly when its ref is another one, and deploys exactly for `refs/heads/main` |
| DeployWebhook.WrongSignatureIsUnauthorized | backend/server.js:46-49 | a present but wrong signature gives 401, whatever the event and whatever the body parses to |
| DeployWebhook.VerifiedPingIsPong | backend/server.js:56-60 | a verified `ping` whose body parses is answered with pong |
| DeployWebhook.VerifiedMainPushDeploys | backend/server.js:56-68 | a verified push of `refs/heads/main` whose body parses reaches the deploy step |
| DeployWebhook.OtherEventsIgnored | backend/server.js:59-61 | a verified delivery of any other event is ignored and never deploys |
| TranslateEndpoint.Validate | backend/server.js:83-107 | a missing API key gives 503 before the body is read; a post request passes exactly when one of its three string fields is non-blank; a text request passes exactly when `text` is a non-blank string; with a key configured every refusal is 400 |
| TranslateEndpoint.OpeningFenceEnd | backend/server.js:145 | the leading alternative matches exactly when the text starts with "```jso"; it consumes the `n` when one follows and then the white space up to the first other character |
| TranslateEndpoint.DropClosingFence | backend/server.js:145 | the trailing alternative removes a final "```" and all the white space before it, and otherwise changes nothing |
| TranslateEndpoint.StripsJsonFence | backend/server.js:145 | an answer fenced as "```json … ```" comes out as exactly the fenced text |
| TranslateEndpoint.KeepsBareFence | backend/server.js:145 | a bare "```" opener is kept and only the closing fence is removed |
| TranslateEndpoint.Respond | backend/server.js:118-157 | each upstream failure status gives its own message (401/403 the key message, 5xx unavailable, 429 the quota text, others the service error); a missing part gives 502; a non-string part gives 500; a thrown call gives 500 with its message, or "Translation failed" when that is empty; a text job answers the trimmed part; a post job whose answer parses to an object takes its string `title`, `excerpt` and `content` and "" for the others, one that parses to another non-null value gives three empty fields, and one that does not parse or parses to null falls back to the whole answer as the title |
| TranslateEndpoint.Translate | backend/server.js:82-158 | a request that fails validation gets the validation reply and never reaches the upstream model; a valid one gets the upstream reply for its trimmed job |
| ContentApi.WithoutId | backend/server.js:235 | the body loses its `id` key and keeps every other field unchanged |
| ContentApi.InsertByDate | backend/server.js:191 | inserting into a newest-first list keeps it newest first and adds exactly that entry |
| ContentApi.SortByDate | backend/server.js:189-192 | the list comes out newest first and is a permutation of the input |
| ContentApi.Render | backend/server.js:195-199 | each entry becomes its document with the store's id added, in order |
| ContentApi.Store.constructor | backend/server.js:161-168 | the store starts with no posts, no links and no bio |
| ContentApi.Store.List | backend/server.js:187-201 | the reply lists each stored document exactly once with its id, and posts come newest first |
| ContentApi.Store.Find | backend/server.js:208-228 | a malformed id gives 400; an unknown id gives 404; otherwise the reply is the document with its id |
| ContentApi.Store.Create | backend/server.js:340-365 | a link missing a truthy platform, username or url gives 400 and nothing is stored; otherwise the body without `id` is stored under the new id and echoed with 201, carrying that id as `id` and as the `_id` the insert adds; the other collection and the bio are untouched; no stored document carries an `id` key afterwards if none did before |
| ContentApi.Store.Update | backend/server.js:248-276 | a malformed id gives 400 and an unknown id gives 404, both leaving the store unchanged; otherwise the supplied fields, minus `id`, overwrite the stored ones and the rest stay |
| ContentApi.Store.Delete | backend/server.js:278-297 | a malformed id gives 400 and an unknown id gives 404; otherwise exactly that document is removed and `{ success: true }` is answered |
| ContentApi.Store.GetBio | backend/server.js:421-430 | the stored translations are returned, or `{}` when there is no bio document |
| ContentApi.Store.PutBio | backend/server.js:432-448 | an object or array `translations` is upserted with the time of the write and echoed; anything else gives 400 and leaves the bio alone |
| ContentApi.CreateThenFind | backend/server.js:230-246 | a created post reads back by the id the create answered with, as the body without `id` plus that id, which for a body without `_id` is the create's reply minus the `_id` the insert added |
| ContentApi.DeleteTwice | backend/server.js:278-297 | a second delete of the same id gives 404 |
| ContentApi.PutBioThenGet | backend/server.js:421-448 | what the bio PUT stored, the bio GET returns |
| App.FilteredBlogPosts | src/App.tsx:70-82 | the blog view keeps, in order and with their multiplicities, exactly the posts matching the query (title or excerpt, either language, ignoring case), the category and both inclusive dates |
| App.ClearedBlogFilterKeepsAll | src/App.tsx:70-82 | with every filter cleared, every post is listed in order |
| App.FlatCategories | src/App.tsx:67 | the flattened list holds exactly the categories some post has |
| App.DedupFromCorrect | src/App.tsx:67 | the set-based de-duplication gives distinct values, all of them and only them, in first-appearance order |
| App.AllCategoriesCorrect | src/App.tsx:67 | the category select offers every category of every post exactly once, in first-appearance order |
| App.CategoryViewOf | src/App.tsx:139-149 | a name maps back only to a category view |
| App.CategoryNamesRoundTrip | src/App.tsx:139-149 | exactly the six category views have a non-empty name, and each is found again from its name |
| App.CategoryPagesMatchEditorCategories | src/App.tsx:158-165 | the six category pages are exactly the six categories the post editor offers |
| App.CategoryPosts | src/App.tsx:157-169 | a category view shows exactly the posts carrying its name, in order and with their multiplicities; any other view shows none |
| App.BlogContent.constructor | src/App.tsx:16-21 | the app starts on home, with the blog as the remembered view and nothing loaded |
| App.BlogContent.Navigate | src/App.tsx:83-106 | a menu click shows its view with no post selected, and leaves the remembered view and the data alone |
| App.BlogContent.OpenPost | src/App.tsx:107-118 | opening a post selects it and remembers the previous view, unless that view was already a post |
| App.BlogContent.Back | src/App.tsx:119-126 | going back shows the remembered view with nothing selected |
| App.BlogContent.Load | src/App.tsx:24-54 | the first load stores both fetched lists, or empties both when a request failed |
| App.BlogContent.Refresh | src/App.tsx:171-182 | a refresh replaces both lists, or keeps both when a request failed |
| App.OpenTwiceThenBack | src/App.tsx:107-126 | opening a post, then another, then going back returns to the starting view |
| AdminDashboard.AdminFilteredPosts | src/pages/AdminDashboard.tsx:63-69 | the dashboard keeps, in order and with their multiplicities, exactly the posts whose title (either language, ignoring case) matches, in the category and within the dates |
| AdminDashboard.AdminResultsAreBlogResults | src/pages/AdminDashboard.tsx:63-69 | every post the dashboard lists is also listed by the blog view under the same filters |
| AdminDashboard.ExcerptOnlyMatchDiffers | src/pages/AdminDashboard.tsx:64 | for every post and query: a post that mentions the query in an excerpt but in neither title, and passes the category and date tests, is listed by the blog view and not by the dashboard |
| AdminDashboard.PostLabel | src/pages/AdminDashboard.tsx:133 | the dialog names the post by its English title, else its Vietnamese title, else "this post"; never the empty string |
| AdminDashboard.FindFirst | src/pages/AdminDashboard.tsx:129 | `find` gives the first matching element, or nothing exactly when no element matches |
| AdminDashboard.LinkLabel | src/pages/AdminDashboard.tsx:151 | the dialog names the link by its platform, or "social link" when it is not found |
| AdminDashboard.FailureText | src/pages/AdminDashboard.tsx:92 | a failure toast shows the error's message, or the fallback text when the message is empty |
| AdminDashboard.Dashboard.constructor | src/pages/AdminDashboard.tsx:33-53 | the dashboard opens on the posts list, with nothing being edited, the dialog closed and no toasts |
| AdminDashboard.Dashboard.NewPost | src/pages/AdminDashboard.tsx:71-74 | the create form opens with no post being edited |
| AdminDashboard.Dashboard.EditPost | src/pages/AdminDashboard.tsx:75-78 | the edit form opens on the chosen post |
| AdminDashboard.Dashboard.NewLink | src/pages/AdminDashboard.tsx:96-99 | the link create form opens with no link being edited |
| AdminDashboard.Dashboard.EditLink | src/pages/AdminDashboard.tsx:100-103 | the link edit form opens on the chosen link |
| AdminDashboard.Dashboard.SavePost | src/pages/AdminDashboard.tsx:79-94 | a form with a non-empty id is an update and any other form is a create; success toasts and returns to the list; failure toasts the message and stays on the form |
| AdminDashboard.Dashboard.SaveLink | src/pages/AdminDashboard.tsx:104-125 | a link with a non-empty id is an update, and any other is created from its three fields without an id; success returns to the list; failure stays on the form |
| AdminDashboard.Dashboard.AskDeletePost | src/pages/AdminDashboard.tsx:128-144 | a delete only opens the dialog, naming the post; nothing is deleted yet |
| AdminDashboard.Dashboard.AskDeleteLink | src/pages/AdminDashboard.tsx:146-162 | a delete only opens the dialog, naming the platform; nothing is deleted yet |
| AdminDashboard.Dashboard.Confirm | src/pages/AdminDashboard.tsx:135-158 | confirming runs the pending delete once and closes the dialog; a settled delete adds the post or link success toast, a failed one the error toast with its message or the fallback text; with no pending delete no toast is added |
| AdminDashboard.Dashboard.Dismiss | src/pages/AdminDashboard.tsx:299 | closing the dialog deletes nothing and keeps its texts |
| AdminDashboard.Dashboard.Cancel | src/pages/AdminDashboard.tsx:163-171 | cancel returns to the current section's list and clears only that section's edited item |
| AdminDashboard.AskThenDecide | src/pages/AdminDashboard.tsx:128-144 | a delete request followed by a dismissal deletes nothing; followed by a confirmation it deletes exactly that post |
| PostEditor.InitialForm | src/components/PostEditor.tsx:23-43 | a new post starts blank, dated today, with a 5-minute read time and no categories; an edited post's fields override every default |
| PostEditor.WithText | src/components/PostEditor.tsx:77-86 | typing changes one language of one bilingual field and nothing else |
| PostEditor.WithField | src/components/PostEditor.tsx:87-93 | a plain field is replaced whole and nothing else changes |
| PostEditor.RemoveAll | src/components/PostEditor.tsx:98 | every occurrence of the category is removed; the others keep their order and their number of occurrences |
| PostEditor.ToggleCategory | src/components/PostEditor.tsx:95-104 | a present category is removed everywhere, the others keeping order and multiplicity; an absent one is appended at the end |
| PostEditor.ToggleTwiceRestoresMembership | src/components/PostEditor.tsx:95-104 | toggling twice restores membership, and restores the list exactly when the category was absent |
| PostEditor.RemoveAllAppended | src/components/PostEditor.tsx:98 | removing a category just appended gives back the list it was appended to |
| PostEditor.CheckImage | src/components/PostEditor.tsx:105-115 | only a file of an `image/` type and at most 5 MiB is read; the type is checked before the size |
| PostEditor.TranslationRequest | src/components/PostEditor.tsx:49-61 | the editor refuses exactly when all three Vietnamese fields are blank, and otherwise sends them as typed |
| PostEditor.WithEnglish | src/components/PostEditor.tsx:62-67 | the translation fills the three English halves and leaves the Vietnamese halves and every other field alone |
| PostEditor.Editor.constructor | src/components/PostEditor.tsx:23-44 | the editor opens on the initial form with the English tab |
| PostEditor.Editor.ChangeText | src/components/PostEditor.tsx:77-86 | the form takes the typed text in one language of one field |
| PostEditor.Editor.ChangeField | src/components/PostEditor.tsx:87-93 | the form takes the new plain field value |
| PostEditor.Editor.Toggle | src/components/PostEditor.tsx:95-104 | the categories are toggled and nothing else changes |
| PostEditor.Editor.SelectTab | src/components/PostEditor.tsx:44 | switching tabs leaves the form alone |
| PostEditor.Editor.UploadImage | src/components/PostEditor.tsx:105-121 | a file passing the checks becomes the image; a refused file leaves the form unchanged |
| PostEditor.Editor.RemoveImage | src/components/PostEditor.tsx:142-147 | the image URL becomes empty and nothing else changes |
| PostEditor.Editor.TranslateViToEn | src/components/PostEditor.tsx:49-75 | the Vietnamese texts are sent unless all are blank; a reply fills the English halves and switches to the English tab; a refusal or a failed call changes nothing |
| PostEditor.Editor.Submit | src/components/PostEditor.tsx:148-155 | the form is saved exactly when it has at least one category |
| CategoryPage.PageFilteredPosts | src/components/CategoryPage.tsx:22-31 | the page keeps, in order and with their multiplicities, exactly the posts matching the query and both dates |
| CategoryPage.PageIsBlogFilterWithAllCategories | src/components/CategoryPage.tsx:21-31 | the page filters exactly as the blog view does with the category set to `all` |
| CategoryPage.ClearedPageFilterKeepsAll | src/components/CategoryPage.tsx:22-31 | with no query and no dates, the page shows every post it was given |
| CategoryPage.NoPostsMessageIffNothingMatches | src/components/CategoryPage.tsx:100-104 | the "no posts" line shows exactly when no post passes the filter |
| LinkEditor.ValidationErrors | src/components/SocialLinkEditor.tsx:31-48 | a blank username is flagged; a blank url, or an `http` URL that does not parse, is flagged; the parse failure's message wins; no other key is set |
| LinkEditor.CheckedUrlIsNotBlank | src/components/SocialLinkEditor.tsx:35-45 | a URL starting with `http` is never blank |
| LinkEditor.RelativeUrlsAreNotParsed | src/components/SocialLinkEditor.tsx:38-42 | a non-blank URL not starting with `http` passes, whatever the URL parser says |
| LinkEditor.Editor.constructor | src/components/SocialLinkEditor.tsx:18-30 | a new link starts as Facebook with empty fields; an edited link's fields are copied in |
| LinkEditor.Editor.SetFields | src/components/SocialLinkEditor.tsx:82-101 | the inputs set the three fields and leave the errors alone |
| LinkEditor.Editor.Validate | src/components/SocialLinkEditor.tsx:31-48 | the errors become the computed error map, and the form is valid exactly when that map is empty |
| LinkEditor.Editor.Submit | src/components/SocialLinkEditor.tsx:49-66 | a record is saved exactly when validation passes; it holds the fields as typed and the edited link's id only when that id is non-empty |
| BioEditor.InitialBio | src/components/BioEditor.tsx:21-26 | the editor starts from the `bio` entry, or from empty texts when there is none |
| BioEditor.Saved | src/components/BioEditor.tsx:28-33 | the saved map holds exactly the managed `bio` key with both texts |
| BioEditor.SaveWithoutEdits | src/components/BioEditor.tsx:20-33 | saving without edits gives back the `bio` entry the editor opened with, and nothing else |
| BioEditor.SavedBioIsShown | src/components/BioEditor.tsx:28-33 | once the saved map is merged into the site's table, `t('bio')` reads the saved text in either language and every other key reads as before |
| BioEditor.Editor.constructor | src/components/BioEditor.tsx:20-26 | the editor opens on the English tab with the initial texts |
| BioEditor.Editor.SelectTab | src/components/BioEditor.tsx:59-80 | a tab button selects that language |
| BioEditor.Editor.Type | src/components/BioEditor.tsx:83-99 | typing changes the selected tab's text only |
| BioEditor.Editor.Submit | src/components/BioEditor.tsx:28-33 | the saved map holds only `bio`, with the two current texts |
| LanguageContext.Lookup | src/context/LanguageContext.tsx:207-211 | `t(key)` is the entry's text in the current language, or the key itself when there is no entry |
| LanguageContext.Merge | src/context/LanguageContext.tsx:203 | API entries win and every other entry stays |
| LanguageContext.MergedLookup | src/context/LanguageContext.tsx:203-211 | after a merge, an API key reads the API's text and any other key reads as before |
| LanguageContext.NoInitialBio | src/context/LanguageContext.tsx:4-189 | the built-in table has no `bio` entry, so `t('bio')` is `bio` |
| LanguageContext.LanguageState.constructor | src/context/LanguageContext.tsx:197-198 | the site starts in Vietnamese with the built-in table |
| LanguageContext.LanguageState.SetLanguage | src/context/LanguageContext.tsx:197 | switching the language keeps the table |
| LanguageContext.LanguageState.MergeBio | src/context/LanguageContext.tsx:200-205 | a non-empty API bio is merged in; an absent or empty one changes nothing |
| LanguageContext.LanguageState.UpdateTranslations | src/context/LanguageContext.tsx:212-217 | the whole table is replaced |
| HomePage.MatchAt | src/pages/HomePage.tsx:6 | a match found at a position starts there and fits in the text |
| HomePage.MatchAtSound | src/pages/HomePage.tsx:6 | whatever is reported at a position is text the link pattern accepts |
| HomePage.MatchAtComplete | src/pages/HomePage.tsx:6 | whatever the pattern accepts at a position is reported, and in only one way |
| HomePage.NextMatch | src/pages/HomePage.tsx:9 | the next match starts at or after the search position and fits in the text |
| HomePage.NextMatchLeftmost | src/pages/HomePage.tsx:6-9 | the next match is the leftmost one: no match starts between the search position and it |
| HomePage.RenderBioParagraph | src/pages/HomePage.tsx:4-26 | the scanning loop produces the text before each match, the link, and finally the rest |
| HomePage.SegmentsReconstruct | src/pages/HomePage.tsx:4-26 | the parts, each link written back as its source, give back the paragraph exactly |
| HomePage.SegmentsAlternate | src/pages/HomePage.tsx:9-24 | text and link parts alternate, starting and ending with text |
| HomePage.SegmentsCount | src/pages/HomePage.tsx:9-24 | there is one more text part than link parts |
| HomePage.SegmentsLinksWellFormed | src/pages/HomePage.tsx:6-22 | every link has a non-empty caption without `]` and a non-empty URL without `)` |
| HomePage.SegmentsLeftmost | src/pages/HomePage.tsx:6-22 | each link sits exactly where the pattern matches, and no match starts inside a text part |
| HomePage.NoLinkSingleSegment | src/pages/HomePage.tsx:4-26 | a paragraph without any link renders as one text part, the whole paragraph |
| HomePage.SplitBlankLines | src/pages/HomePage.tsx:31 | the split gives at least one piece, and the first piece is a prefix of the bio |
| HomePage.SplitRoundTrip | src/pages/HomePage.tsx:31 | the bio is its pieces joined by runs of two or more newlines; no piece contains a blank line, no piece next to a run ends or begins with a newline, and no piece between two runs is empty, so the runs are maximal |
| HomePage.TidyParagraphs | src/pages/HomePage.tsx:31-39 | every paragraph is non-empty and trimmed; the paragraphs are the trimmed pieces in their order, each non-blank one kept as often as it occurs and every blank one dropped |
| HomePage.TrimAllTail | src/pages/HomePage.tsx:31-39 | trimming every piece commutes with dropping the first piece |
| HomePage.KeepNonEmptyCons | src/pages/HomePage.tsx:31-39 | one step of dropping empty strings keeps order and the count of every non-empty string |
| HomePage.OneParagraph | src/pages/HomePage.tsx:30-31 | a bio without blank lines and without surrounding white space is a single paragraph, the bio itself |
| HomePage.InitialBioIsItsKey | src/pages/HomePage.tsx:30-31 | until the API supplies a bio, the page shows one paragraph reading `bio` |

## Left out

- Unicode:
  - `toLowerCase` is modelled for the ASCII letters only.
  - Strings are sequences of code points, so string `<=` compares code points where JavaScript compares UTF-16 code units. The two orders agree on the Basic Multilingual Plane.
- JSON numbers are integers. Floating point is not modelled.
- Ids:
  - ObjectIds are opaque strings.
  - ContentApi.Store.Find, ContentApi.Store.Update and ContentApi.Store.Delete: `new ObjectId(id)` reads the hex id case-insensitively, so an upper-case id finds the stored document and the reply carries the lower-case `_id.toString()`. These three members key on the raw string, so they answer 404 for such a request: the case normalisation is not modelled.
  - `ObjectId.isValid` and the id a store generates are parameters.
  - `_id` becoming `id`, and the `_id: undefined` key that `JSON.stringify` drops, are folded into `Exposed`.
- ContentApi.Store.List:
  - The posts are sorted by their `date` as a string, and a missing or non-string date reads as "".
  - MongoDB's ordering across BSON types is not modelled.
  - So is the order of posts with equal dates. The contract states only newest-first order and that each document appears exactly once.
- ContentApi.Store.Create: a body that brings its own `_id` is stored by MongoDB under that `_id`, not under a fresh id. The model always uses the fresh id, and so does ContentApi.CreateThenFind.
- ContentApi.Store.Update: a body carrying `_id` makes MongoDB refuse the `$set` with a 500; the model writes it like any other field.
- ContentApi.Store.Update: `result.value` is read as the updated document. That is the driver's older `findOneAndUpdate` result shape, which the handler assumes.
- The database:
  - Every `500` reply for a failed database call, and the `try`/`catch` around it, is not modelled.
  - Neither are `connectDB`, its indexes and the process exit on connection failure.
- The server itself is not modelled:
  - the informational `GET /api/deploy-webhook`;
  - `/health`;
  - `app.listen`, the `EADDRINUSE` handler and the signal handlers;
  - CORS and the body parsers.
- DeployWebhook.Handle: the model stops at the decision to deploy. Running `bash deploy.sh`, and its `Deploy failed` 500 reply with the captured output, are process I/O.
- TranslateEndpoint.Respond:
  - The 429 retry message and the retry-seconds parsing behind it are a parameter (`quotaMessage`). Their Vietnamese text is not modelled.
  - The prompt texts, the request URL and the generation settings are not modelled.
  - `response.json()` failing is covered by the thrown-call case.
- JavaScript errors: the message of a `TypeError` is modelled only for `part.trim` on a non-string part.
- Time and browser I/O are parameters:
  - `new Date()` (the editor's today and the bio's `updatedAt`);
  - `FileReader`'s data URL;
  - `alert`;
  - `window.scrollTo`.
- The awaited API calls of the frontend are parameters: a success value or a failure.
- AdminDashboard.Dashboard.SaveLink: the 100 ms delay before the links list shows is collapsed into the save.
- AdminDashboard.Dashboard.Confirm: the dialog runs `onConfirm` and closes without awaiting it. The model lets the delete settle first.
- AdminDashboard: the dialog's `variant` and the toast list's own removal (`useToast`) are not modelled.
- App.BlogContent.Load: the `isMounted` guard against updates after unmount is not modelled.
- UI-only state is not modelled:
  - drag highlighting;
  - the translation spinner;
  - the results-count sentences;
  - the theme and the other components rendered around the core.
- Each filter's search, category and date inputs are the filter functions' parameters, not class fields.
- PostEditor.InitialForm: an edited post whose `imageUrl` key is present but `undefined` would override the `''` default with `undefined`. The typed model has only a present string or none.
- PostEditor.WithField:
  - `handleChange` accepts ill-typed combinations, such as a string for `categories` or a language for `date`.
  - The model takes only the combinations the editor makes.
- BioEditor.InitialBio: a `bio` entry missing one of its halves reads that half as `''` in the source. In the model, every entry has both halves.
- Form events:
  - `preventDefault` is not modelled;
  - `onCancel` is a plain callback.
- Authentication (`AuthContext`, the admin login) and the Firebase and storage services are not part of this model.
