# Portfolio site: content, session and admin logic in Dafny

The site is a Next.js portfolio with a small administrative back end. This
project models its logic layer and proves properties of that model:

- the embedded content store (experience timeline, the three skill
  categories, slugs and experience file names);
- the cookie session behind the admin area (password check, hex session
  token, a JSON cookie with an expiry, login, logout and status endpoints);
- the write endpoints for experiences and skills (check order, field
  defaults, order and slug assignment, the bounds-checked skill merge);
- the admin editors (the skills editor that mutates its nested arrays, the
  experiences form with its comma-separated technologies field, the
  dashboard counts);
- the theme table with its CSS variables and stored preference, the theme
  provider, the admin navigation's active-item rule, and the rendering
  decisions of the home page.

One Dafny module stands for each source file:

| module | file |
|---|---|
| Content | lib/content.ts |
| Auth | lib/auth.ts |
| AuthRoute | app/api/auth/route.ts |
| ExperiencesRoute | app/api/experiences/route.ts |
| SkillsRoute | app/api/skills/route.ts |
| AdminSkills | app/admin/skills/page.tsx |
| AdminExperiences | app/admin/experiences/page.tsx |
| AdminDashboard | app/admin/page.tsx |
| Themes | lib/themes.ts |
| ThemeProvider | components/ThemeProvider.tsx |
| AdminNav | components/admin/AdminNav.tsx |
| HomeClient | components/HomeClient.tsx |

The remaining modules are shared:

- `ContentTypes` holds the record types of lib/content-types.ts.
- `Text` holds the JavaScript string built-ins the code calls: `split`, `join`, `trim`, `padStart`, `toString(radix)`, `indexOf` and `replace` with a string pattern.
- `Json` holds `JSON.stringify` and `JSON.parse` on the flat objects the session cookie uses, plus JavaScript property access, truthiness and `Number()`.
- `Http` holds a response as a status and a body.
- `Wrappers` holds `Option` and `Result`.

Each source file takes the form its code has:

- **Pure expressions become functions with lemmas.** Examples are `generateSlug`, the route decisions and the dashboard counts.
- **Objects with mutable state become classes.** Their methods are proved against those functions:
  - the module array sorted in place by `getExperiences`;
  - the cookie store;
  - the files written by `saveExperience` and `saveSkillCategory`;
  - the editor pages' React state;
  - the document style and `localStorage`;
  - the theme provider's state.
- **`getExperiences` sorts its array in place.** It is an insertion sort on the `array` itself, proved to leave the array sorted by `order` and a permutation of what it held.

External facilities are parameters:

- the configured `ADMIN_PASSWORD`;
- `Date.now()`;
- the 32 random bytes of the token;
- `NODE_ENV === "production"`;
- the decoded request body, where `None` stands for a body that fails to decode;
- the user's answer to `confirm()`;
- the data a `fetch` returns.

A request that a page sends is recorded in a `requests` sequence.

## Model

| member | source | states |
|---|---|---|
| Content.LowerCase | lib/content.ts:129 | `toLowerCase` maps each character on its own (ASCII letters only) and keeps the length |
| Content.SlugIsWellFormed | lib/content.ts:127-132 | every slug uses only `a-z`, `0-9` and `-`, never holds `--`, and neither starts nor ends with `-` |
| Content.SlugFixedPoints | lib/content.ts:127-132 | `generateSlug(s) == s` exactly when `s` is already a well-formed slug (both directions) |
| Content.SlugIdempotent | lib/content.ts:127-132 | `generateSlug(generateSlug(t)) == generateSlug(t)` |
| Content.SlugKeepsAlphanumerics | lib/content.ts:128-131 | the slug keeps every letter and digit of the lower-cased text, in order, and drops everything else |
| Content.CollapseShape | lib/content.ts:130 | replacing each run of non-alphanumerics with one `-` never leaves two hyphens next to each other |
| Content.CollapseOfHyphenSeparated | lib/content.ts:130 | that replacement changes nothing in text that is already hyphen-separated |
| Content.SkipRun | lib/content.ts:130 | a run of non-slug characters is skipped exactly up to the next letter or digit |
| Content.PaddedOrderShape | lib/content.ts:136 | orders 0 to 9 gain one leading `0`; orders of 10 and above are written unpadded |
| Content.PaddedOrderValue | lib/content.ts:136 | the padded order is all digits and reads back as the order |
| Content.FilenameRecoversOrder | lib/content.ts:135-139 | the part of a file name before its first `-` reads back as the order |
| Content.FilenameSlugPart | lib/content.ts:135-139 | a file name is the padded order, one `-`, then the well-formed slug of the title |
| Content.SlugExample | lib/content.ts:127-132 | "Junior Developer" gives the slug "junior-developer" |
| Content.FilenameExample | lib/content.ts:135-139 | order 3 with "Junior Developer" gives "03-junior-developer", the slug the third embedded record carries |
| Content.GetSkills | lib/content.ts:57-113 | exactly the keys frontend, backend and tools; each category's `slug` is its key; every level lies in 0..100 |
| Content.GetSkillCategory | lib/content.ts:116-119 | the category for the three keys; null for any other key except an inherited `Object.prototype` member, which is reported as such |
| Content.FindBySlug | lib/content.ts:102-104 | the index of the first record with the slug, or none when no record has it |
| Content.InsertNext | lib/content.ts:98 | one insertion step extends the sorted prefix by one and permutes the array |
| Content.ArrayOf | lib/content.ts:17 | a fresh array holding exactly the given records |
| Content.ContentStore.constructor | lib/content.ts:17-54 | the module array starts out holding the given records |
| Content.LoadContent | lib/content.ts:17-54 | module load: the array holds the four embedded experience records |
| Content.ContentStore.GetExperiences | lib/content.ts:97-99 | returns the array's new contents, sorted ascending by `order`, a permutation of the old contents; the array itself is left sorted |
| Content.ContentStore.GetExperience | lib/content.ts:102-104 | the first record in the array with that slug, or none exactly when no element has it |
| Auth.GetAdminPassword | lib/auth.ts:9-15 | the configured password when it is set and non-empty, otherwise the error message it throws |
| Auth.VerifyPassword | lib/auth.ts:18-25 | true exactly when the password is configured, non-empty and equal to the argument; an unset password gives false |
| Auth.EmptyPasswordRejected | lib/auth.ts:18-25 | the empty password is never accepted |
| Auth.HexPair | lib/auth.ts:31 | a byte becomes two lowercase hex digits |
| Auth.ByteHexIsPair | lib/auth.ts:31 | `byte.toString(16).padStart(2, "0")` equals the high-nibble, low-nibble digit pair |
| Auth.HexEncode | lib/auth.ts:31 | n bytes become 2n lowercase hex digits |
| Auth.HexEncodeAt | lib/auth.ts:31 | characters 2i and 2i+1 of the encoding are byte i's two digits, in byte order |
| Auth.GenerateSessionToken | lib/auth.ts:28-32 | 32 bytes give 64 lowercase hex characters, which need no JSON escaping |
| Auth.HexDecodeEncode | lib/auth.ts:31 | decoding the hex text gives back the bytes |
| Auth.TokenInjective | lib/auth.ts:28-32 | distinct random byte arrays give distinct tokens |
| Auth.SessionCookie | lib/auth.ts:37-47 | httpOnly, secure iff production, sameSite lax, path "/", `maxAge` 86 400 s, which is `SESSION_DURATION` / 1000; the value parses back to `{token, expiresAt: now + 86 400 000}` |
| Auth.Issue | lib/auth.ts:35-50 | the session cookie is set or overwritten; every other cookie is kept |
| Auth.Clear | lib/auth.ts:78-81 | the session cookie is removed; every other cookie is kept |
| Auth.ClearIdempotent | lib/auth.ts:78-81 | clearing twice is clearing once |
| Auth.SessionValue | lib/auth.ts:56-60 | a session value exists exactly when the cookie is present and non-empty |
| Auth.CheckAsWritten | lib/auth.ts:53-75 | the check as the code writes it: an absent or empty cookie, text that does not parse, or a JSON `null` (whose `.expiresAt` throws) gives false without clearing; otherwise `now > Number(expiresAt)` clears and rejects, and anything else is accepted |
| Auth.Expiry | lib/auth.ts:62-65 | an expiry exists exactly when the cookie is present, its value parses, and the parsed value's `expiresAt` property is an integer, and it is that integer |
| Auth.CheckSession | lib/auth.ts:53-75 | accepts exactly when an expiry is present and `now <= expiresAt`; clears exactly when `now > expiresAt` |
| Auth.IssuedExpiry | lib/auth.ts:35-50 | a session issued at t carries the expiry t + 86 400 000 |
| Auth.IssueThenCheck | lib/auth.ts:37-65 | after issuing at t, the check accepts at every t' <= t + 24 h (including the expiry instant itself); it refuses and clears at every later t' |
| Auth.TokenIrrelevant | lib/auth.ts:62-71 | the verdict does not depend on the stored token |
| Auth.CheckAfterClear | lib/auth.ts:58-81 | after clearing, both checks refuse without clearing again |
| Auth.CheckAgreesOnWellFormed | lib/auth.ts:62-71 | the corrected check agrees with the code wherever the cookie carries an integer expiry |
| Auth.AsWrittenAcceptsMissingExpiry | lib/auth.ts:62-71 | the cookie value `{}` is accepted by the code as written and refused by the corrected check |
| Auth.CookieStore.constructor | lib/auth.ts:40 | the jar starts with the given cookies |
| Auth.CookieStore.SetAdminSession | lib/auth.ts:35-50 | returns the hex token of the random bytes and stores the issued cookie |
| Auth.CookieStore.IsAdminAuthenticated | lib/auth.ts:53-75 | returns the check's verdict and deletes the cookie when it has expired |
| Auth.CookieStore.ClearAdminSession | lib/auth.ts:78-81 | deletes the session cookie |
| AuthRoute.Login | app/api/auth/route.ts:7-38 | the status is 200, 400, 401 or 500. 500 is returned iff the body is absent or `null` (reading `.password` throws). 400 is returned iff the password is falsy. 200 is returned iff it equals the configured non-empty password, which issues the session. Otherwise the jar is unchanged |
| AuthRoute.MissingPasswordRefused | app/api/auth/route.ts:12-17 | a missing or empty password gives 400 "Password is required" and sets no cookie |
| AuthRoute.WrongPasswordRefused | app/api/auth/route.ts:19-26 | a wrong password gives 401 "Invalid password" and sets no cookie |
| AuthRoute.LoginThenStatus | app/api/auth/route.ts:28-58 | the correct password gives 200 `{success: true}`, and a status query within 24 h reports authenticated |
| AuthRoute.Logout | app/api/auth/route.ts:41-52 | always clears the cookie and answers 200 `{success: true}` |
| AuthRoute.CheckStatus | app/api/auth/route.ts:55-66 | answers 200 with `authenticated` equal to the corrected session check's verdict, clearing an expired cookie |
| AuthRoute.CheckStatusAsWritten | app/api/auth/route.ts:55-66 | answers 200 with `authenticated` equal to the code's own session check, and leaves the jar that check leaves |
| AuthRoute.StatusAgreesOnWellFormed | app/api/auth/route.ts:55-66 | on a cookie with an integer expiry the code's status answer and the corrected one are the same |
| AuthRoute.StatusAsWrittenAcceptsMissingExpiry | app/api/auth/route.ts:55-66 | with the cookie value `{}` the code answers `authenticated: true`, the corrected handler `false` |
| AuthRoute.LogoutThenStatus | app/api/auth/route.ts:41-58 | after logout, status reports `authenticated: false` |
| AuthRoute.Post | app/api/auth/route.ts:7-38 | the handler on a cookie store answers and updates the store as `Login` says |
| AuthRoute.Delete | app/api/auth/route.ts:41-52 | the handler on a cookie store answers and updates the store as `Logout` says |
| AuthRoute.Get | app/api/auth/route.ts:55-66 | the handler on a cookie store answers and updates the store as `CheckStatus` says |
| ExperiencesRoute.WithSlug | app/api/experiences/route.ts:63-75 | the returned experience carries the saved record's order, year, title, company, description and technologies, plus its slug |
| Storage.Write | app/api/experiences/route.ts:54-61 | upsert: the file name now maps to the record, whether or not it existed; every other file is kept |
| Storage.WriteLastWins | app/api/skills/route.ts:54-59 | saving a second record under the same name replaces the first |
| Storage.WritesCommute | app/api/skills/route.ts:54-59 | saves under two different names can happen in either order |
| ExperiencesRoute.NewRecord | app/api/experiences/route.ts:54-61 | the record takes the given order, year, title and company; a missing description defaults to "" and missing technologies default to [] |
| ExperiencesRoute.Create | app/api/experiences/route.ts:24-83 | 401 comes before the body is read and leaves the store unchanged. A body that fails to decode gives 500. 400 is returned iff year, title or company is falsy, and the store is unchanged. Otherwise 200 saves the record with order = count + 1 under slug = file name of (order, title) |
| ExperiencesRoute.CreatedIsSaved | app/api/experiences/route.ts:47-75 | the returned slug is a saved key, and the returned experience is the saved record plus that slug; its order is count + 1, and the slug's prefix reads back as that order |
| ExperiencesRoute.CreateKeepsOtherFiles | app/api/experiences/route.ts:54-61 | every other stored file survives a create |
| ExperiencesRoute.List | app/api/experiences/route.ts:10-21 | `GET` answers 200 with exactly the given list |
| ExperiencesRoute.ExperienceFiles.constructor | app/api/experiences/route.ts:54 | the files start as given |
| ExperiencesRoute.ExperienceFiles.SaveExperience | app/api/experiences/route.ts:54-61 | the store is upserted with the record |
| ExperiencesRoute.Get | app/api/experiences/route.ts:10-21 | answers with the `getExperiences` list, which leaves the module array sorted and permuted |
| ExperiencesRoute.Post | app/api/experiences/route.ts:24-83 | checks the session (clearing it when expired), then answers and writes as `Create` says with the array's length as the count; the array is sorted only when the count was taken |
| SkillsRoute.PutRecord | app/api/skills/route.ts:54-59 | saves `category = data.category \|\| key`, `title = data.title \|\| key`, `order = data.order \|\| 0` and `skills = data.skills \|\| []` |
| SkillsRoute.PutOutcome | app/api/skills/route.ts:24-75 | the checks run as 401, then 500 for an undecodable body, then 400. 400 is returned iff the category is falsy, the data is absent or the category is not one of the three. 200 saves the record and answers with the embedded skill table. A refused request saves nothing |
| SkillsRoute.PutInvalidCategory | app/api/skills/route.ts:45-51 | an unknown category gives 400 with its message and saves nothing |
| SkillsRoute.PutDefaults | app/api/skills/route.ts:54-59 | empty data is saved with category and title equal to the key, order 0 and no skills |
| SkillsRoute.PutAnswerIgnoresSave | app/api/skills/route.ts:62-67 | every successful `PUT` answers with the same embedded table, whatever it saved |
| SkillsRoute.Merge | app/api/skills/route.ts:112-114 | `{...old, ...skill}`: each field comes from the patch when given, otherwise from the old skill |
| SkillsRoute.MergeLaws | app/api/skills/route.ts:112-114 | an empty patch changes nothing, and applying a patch twice is applying it once |
| SkillsRoute.PatchSkills | app/api/skills/route.ts:109-114 | a copy of the same length in which only the skill at the index is merged; other skills are identical |
| SkillsRoute.PatchRecord | app/api/skills/route.ts:116-121 | the saved record keeps the category's fields, takes the new skills and keeps its slug |
| SkillsRoute.PatchOutcome | app/api/skills/route.ts:78-142 | the checks run as 401, 500 for an undecodable body, 400 when a field is missing, 404 for an unknown category and 400 for an index outside [0, len). An inherited prototype key gives 500. 200 is returned exactly when all checks pass; it merges and saves |
| SkillsRoute.PatchIndexZero | app/api/skills/route.ts:92-97 | `skillIndex = 0` is accepted |
| SkillsRoute.PatchShape | app/api/skills/route.ts:109-134 | an accepted `PATCH` keeps the category's fields and length and changes only the indexed skill; an in-range level keeps every level in 0..100 |
| SkillsRoute.PatchRejectedKeepsStore | app/api/skills/route.ts:100-121 | a refused `PATCH` saves nothing |
| SkillsRoute.List | app/api/skills/route.ts:10-21 | `GET` answers 200 with the embedded skill table |
| SkillsRoute.SkillFiles.constructor | app/api/skills/route.ts:62 | the saved categories start as given |
| SkillsRoute.SkillFiles.SaveSkillCategory | app/api/skills/route.ts:62-67 | the store is upserted with the category |
| SkillsRoute.CopyAndMerge | app/api/skills/route.ts:109-114 | the copied array with its one assignment holds exactly the merged skills |
| SkillsRoute.Put | app/api/skills/route.ts:24-75 | checks the session (clearing it when expired), then answers and writes as `PutOutcome` says |
| SkillsRoute.Patch | app/api/skills/route.ts:78-142 | checks the session (clearing it when expired), then answers and writes as `PatchOutcome` says |
| AdminSkills.KeyName | app/admin/skills/page.tsx:89 | every editor key is a category the `PUT` route accepts |
| AdminSkills.WithCategory | app/admin/skills/page.tsx:59-60 | replacing one category leaves the other two unchanged |
| AdminSkills.WithList | app/admin/skills/page.tsx:59-79 | replacing one category's list changes nothing else in it or in the other categories |
| AdminSkills.SetField | app/admin/skills/page.tsx:60-63 | only the named field changes; a level is converted with `Number` |
| AdminSkills.Splice | app/admin/skills/page.tsx:79 | `splice(index, 1)` removes element `index`; a negative index counts from the end; an index past the end removes nothing |
| AdminSkills.PutRequest | app/admin/skills/page.tsx:90-97 | each save request is a `PUT` naming its category |
| AdminSkills.SaveRequests | app/admin/skills/page.tsx:89-98 | request i is the `PUT` for category i of frontend, backend, tools |
| AdminSkills.SaveRequestsList | app/admin/skills/page.tsx:89-98 | exactly three `PUT`s, in the order frontend, backend, tools |
| AdminSkills.SaveReplay | app/admin/skills/page.tsx:89-98 | replaying these requests against the route writes the three categories in that order |
| AdminSkills.SaveIsStored | app/admin/skills/page.tsx:89-98 | after the replay, each category's stored record is the one its request carried |
| AdminSkills.SkillsEditor.constructor | app/admin/skills/page.tsx:29-31 | no skills yet, loading, not saving, nothing sent |
| AdminSkills.SkillsEditor.FetchSkills | app/admin/skills/page.tsx:39-49 | sends the `GET`, stores the data and stops loading |
| AdminSkills.SkillsEditor.HandleSkillChange | app/admin/skills/page.tsx:51-65 | does nothing without skills; otherwise only the named field of skill `index` in the chosen category changes |
| AdminSkills.SkillsEditor.HandleAddSkill | app/admin/skills/page.tsx:67-73 | does nothing without skills; otherwise appends `{name: "", level: 50}` to the chosen category |
| AdminSkills.SkillsEditor.HandleRemoveSkill | app/admin/skills/page.tsx:75-81 | does nothing without skills; otherwise splices one element out of the chosen category |
| AdminSkills.SkillsEditor.HandleSave | app/admin/skills/page.tsx:83-105 | without skills, sends nothing; otherwise appends the three `PUT`s in order and ends with `saving` false |
| AdminDashboard.TotalAfterEdits | app/admin/page.tsx:14-17 | adding a skill raises the total by one; removing one in range lowers it by one |
| AdminDashboard.TotalSkills | app/admin/page.tsx:14-17 | the total is the number of skills across the three categories |
| AdminDashboard.Stats | app/admin/page.tsx:19-35 | three entries, Experiences, Skills, Projects, with their counts and links |
| AdminDashboard.Recent | app/admin/page.tsx:193 | the first min(3, n) experiences in list order |
| AdminDashboard.RecentHaveLowestOrders | app/admin/page.tsx:193 | in a sorted list, the recent ones have no larger order than any other |
| AdminDashboard.StatusText | app/admin/page.tsx:271-273 | "Available for projects" iff available, otherwise "Not available" |
| AdminExperiences.TrimAll | app/admin/experiences/page.tsx:85 | each part is trimmed |
| AdminExperiences.NonEmpty | app/admin/experiences/page.tsx:86 | exactly the empty parts are dropped: the result's multiset is the input's without `""`, every element is non-empty, and a list without empty parts is kept whole |
| AdminExperiences.NonEmptyAppend | app/admin/experiences/page.tsx:86 | filtering a concatenation filters each part and keeps their order |
| AdminExperiences.TrimKeepsCommaFree | app/admin/experiences/page.tsx:84-85 | trimming keeps a part comma-free |
| AdminExperiences.ParseTechnologies | app/admin/experiences/page.tsx:83-86 | every parsed entry is non-empty, trimmed and comma-free |
| AdminExperiences.ParseJoin | app/admin/experiences/page.tsx:69-86 | parsing the `", "`-join of trimmed, non-empty, comma-free entries gives the list back |
| AdminExperiences.JoinCommaSpace | app/admin/experiences/page.tsx:69 | joining with `", "` is joining with `","` after putting a space in front of every entry but the first |
| AdminExperiences.ParseSingle | app/admin/experiences/page.tsx:83-86 | a trimmed text without commas parses to itself, or to nothing when it is empty |
| AdminExperiences.FormOf | app/admin/experiences/page.tsx:63-73 | the edit form copies the fields and shows the technologies joined by `", "` |
| AdminExperiences.Payload | app/admin/experiences/page.tsx:78-87 | the submitted body carries the form fields and the parsed technologies |
| AdminExperiences.PayloadValidation | app/admin/experiences/page.tsx:78-87 | an authenticated `POST` of the form succeeds iff year, title and company are non-empty |
| AdminExperiences.EditSubmitRoundTrip | app/admin/experiences/page.tsx:63-87 | editing and submitting unchanged sends the record's own fields and technologies back |
| AdminExperiences.SubmitRequest | app/admin/experiences/page.tsx:90-104 | `PUT /api/experiences/{editingId}` when editing, otherwise `POST /api/experiences` |
| AdminExperiences.ExperiencesEditor.constructor | app/admin/experiences/page.tsx:20-33 | the initial state: nothing loaded, loading, not editing, no new form, empty form |
| AdminExperiences.ExperiencesEditor.FetchExperiences | app/admin/experiences/page.tsx:39-49 | sends the `GET`, stores the list and stops loading |
| AdminExperiences.ExperiencesEditor.ResetForm | app/admin/experiences/page.tsx:51-61 | all five fields become "", `editingId` null, `showNewForm` false |
| AdminExperiences.ExperiencesEditor.OpenNewForm | app/admin/experiences/page.tsx:153-156 | the form is reset and shown for a new record |
| AdminExperiences.ExperiencesEditor.HandleEdit | app/admin/experiences/page.tsx:63-73 | the form holds the record, `editingId` is its slug, `showNewForm` is false |
| AdminExperiences.ExperiencesEditor.HandleSubmit | app/admin/experiences/page.tsx:75-112 | sends the `PUT` or `POST` of the form, resets the form and reloads the list |
| AdminExperiences.ExperiencesEditor.HandleDelete | app/admin/experiences/page.tsx:114-124 | when confirmed, sends the `DELETE` and reloads; otherwise sends nothing; the form is untouched |
| Themes.TableWellFormed | lib/themes.ts:19-88 | four themes; every entry's `id` is its key; `availableThemes` lists every entry |
| Themes.LookupAsWritten | lib/themes.ts:90-92 | `themes[id] \|\| themes.light` as written: the entry for a known id, the light theme for an unknown one, the inherited member for an `Object.prototype` name |
| Themes.InheritedNameIsNoTheme | lib/themes.ts:90-92 | "constructor" yields an inherited member rather than a theme |
| Themes.GetTheme | lib/themes.ts:90-92 | the entry for a known id, otherwise the light theme; the result is always a table entry |
| Themes.GetThemeOfId | lib/themes.ts:90-92 | a theme is found again by its own id; the default argument gives light |
| Themes.LookupAgrees | lib/themes.ts:90-92 | for every id that is not an inherited name, the code's lookup and the corrected one agree |
| Themes.ColorValues | lib/themes.ts:98-108 | one colour value per CSS variable |
| Themes.StyleSetsEach | lib/themes.ts:98-108 | each of the 11 CSS variables is set to its colour field |
| Themes.StyleKeepsOthers | lib/themes.ts:98-108 | no other style property changes |
| Themes.SavedTheme | lib/themes.ts:114-117 | "light" without a window, "light" with a window but no or an empty stored value, and otherwise the stored value |
| Themes.Browser.constructor | lib/themes.ts:95 | the window flag, the style and the storage start as given |
| Themes.Browser.ApplyTheme | lib/themes.ts:94-112 | sets the 11 variables and stores the theme id under "theme-preference" |
| Themes.Browser.GetSavedTheme | lib/themes.ts:114-117 | reads the stored preference as `SavedTheme` says |
| Themes.ApplyThenSaved | lib/themes.ts:111-116 | after applying a theme, the saved preference is its id, and looking that id up gives the theme back |
| ThemeProvider.Provider.constructor | components/ThemeProvider.tsx:15-16 | the light theme, not mounted |
| ThemeProvider.Provider.Mount | components/ThemeProvider.tsx:18-24 | restores the saved theme (light when it is unknown), applies it and marks the provider mounted |
| ThemeProvider.Provider.SetTheme | components/ThemeProvider.tsx:26-30 | the chosen theme (light when it is unknown) becomes current and is applied |
| ThemeProvider.Provider.UseTheme | components/ThemeProvider.tsx:32-55 | a context with the current theme and every table entry iff mounted; otherwise the error `useTheme` throws |
| ThemeProvider.ChosenThemeRestored | components/ThemeProvider.tsx:18-30 | a theme chosen with `setTheme` is the one the next mount restores |
| ThemeProvider.MountFallsBackToLight | components/ThemeProvider.tsx:19-20 | with no saved theme, or an unknown one, mount restores light |
| AdminNav.IsActiveMeaning | components/admin/AdminNav.tsx:15-20 | an exact item is active iff pathname equals href; a non-exact one iff pathname starts with href |
| AdminNav.ActiveItems | components/admin/AdminNav.tsx:9-20 | the active items are exactly the indices of the navigation list whose rule holds |
| AdminNav.SectionPaths | components/admin/AdminNav.tsx:9-20 | on each section's own path, only that section's item is active; Dashboard is not active on the other two |
| AdminNav.NoSegmentBoundary | components/admin/AdminNav.tsx:12-19 | the prefix test has no segment boundary: `/admin/skills-old` activates Skills |
| HomeClient.FirstEmail | components/HomeClient.tsx:630 | the index of the first link of email type, or none when there is none |
| HomeClient.ContactAddress | components/HomeClient.tsx:630 | never empty; the fallback "your@email.com" when there is no email link; otherwise the first email link's href with its first `mailto:` removed, or the fallback when that leaves nothing |
| HomeClient.ContactHref | components/HomeClient.tsx:630 | "mailto:" followed by the contact address |
| HomeClient.ContactOfMailto | components/HomeClient.tsx:630 | for a `mailto:` link, the address after the prefix, or the fallback when that is empty |
| HomeClient.ContactOfBareAddress | components/HomeClient.tsx:630 | a link without `mailto:` in its href is used as it stands |
| HomeClient.WordSpans | components/HomeClient.tsx:276-284 | one span per word; only the last is italic |
| HomeClient.TitleSpans | components/HomeClient.tsx:276-284 | one span per space-separated word, at least one |
| HomeClient.ConcatWordSpans | components/HomeClient.tsx:276-284 | the spans' texts read the words joined by single spaces |
| HomeClient.TitleSpansSpellTitle | components/HomeClient.tsx:276-284 | the spans spell the title exactly, and the last one is italic |
| HomeClient.OneLastItem | components/HomeClient.tsx:377 | a timeline of n items marks exactly one as last, and none when it is empty |
| HomeClient.ShowsBanner | components/HomeClient.tsx:134 | the availability banner is shown iff `available` |
| HomeClient.StartIndex | components/HomeClient.tsx:416-433 | offsets are multiples of 4 below 12 |
| HomeClient.SkillNumbersDistinct | components/HomeClient.tsx:416-433 | with four skills per category, the offsets 0, 4 and 8 number every skill differently |
| Json.ParseSerialize | lib/auth.ts:38-62 | `JSON.parse(JSON.stringify(v))` gives back every serializable value, so the session data written is what is read |
| Json.GetProperty | app/api/auth/route.ts:10 | reading a property of `null` throws; a defined property comes only from an object |
| Json.MemberValue | lib/auth.ts:65 | the value of the last member with that key, or none exactly when no member has it |
| Json.ToNumber | lib/auth.ts:65 | an undefined property converts to NaN |
| Json.GreaterThan | lib/auth.ts:65 | `now > x` can hold only when x converts to a number |
| Text.IntToString | lib/content.ts:136 | decimal `toString`: a `-` sign only for negative numbers, then the digits |
| Text.DigitsValueOfToRadix | lib/content.ts:136 | the decimal digits of n read back as n |
| Text.PadStart | lib/content.ts:136 | the result has the target width (or more), ends with the text and is filled on the left |
| Text.Trim | app/admin/experiences/page.tsx:85 | the result is trimmed and is the text with its surrounding whitespace removed |
| Text.Split | components/HomeClient.tsx:276 | at least one part; no part contains the separator |
| Text.JoinSplit | components/HomeClient.tsx:276-284 | joining the parts of a split with the separator gives the text back |
| Text.SplitJoin | app/admin/experiences/page.tsx:69-84 | splitting the join of separator-free parts gives the parts back |
| Text.IndexOf | components/HomeClient.tsx:630 | the first occurrence of the pattern, or none when it does not occur |
| Text.ReplaceFirst | components/HomeClient.tsx:630 | a string pattern replaces only its first occurrence |
| Text.ReplaceLeading | components/HomeClient.tsx:630 | removing a leading prefix gives the rest |

## Left out

- The animation, pointer and purely presentational components are not modelled, and neither are `getSiteConfig` and the `config.json` it returns. The site configuration is a parameter wherever it is read.
- The write side of `saveExperience` and `saveSkillCategory` is not visible in lib/content.ts. Both are modelled by the one upsert `Storage.Write` on an abstract map; file I/O is not modelled.
- The `GET` handlers for experiences and skills read the embedded tables, so they never see what the `PUT`/`PATCH`/`POST` handlers saved. That is also what the code does.
- The `try`/`catch` of the two `GET` handlers and of `DELETE /api/auth` cannot reach their 500 answers in the model, because nothing they call can fail here.
- Request bodies are taken as already-decoded records of typed optional fields. A field of the wrong JSON type, or a non-numeric `order`, is not modelled. The login body keeps JSON values, because its `password` test depends on truthiness.
- `Json` handles only the subset the session cookie uses: `null`, booleans, integers, plain strings without escapes, and flat objects without whitespace. Any other cookie text parses to `None`, as if `JSON.parse` threw. `Number()` is modelled on integers and NaN only.
- Json.ToNumber: a string with a fraction, an exponent, a `0x`/`0o`/`0b` prefix or `Infinity` ("1.5", "1e3", "0x10") gives NaN, where JavaScript gives a number. Floating point is not modelled.
- AdminSkills.SetField: requires the level text to be a decimal integer, because the slider only sends those and floating-point levels are not modelled.
- AdminSkills.SkillsEditor.HandleSkillChange: requires the index to be in range. The code would write a new object past the end of the array, and the editor never asks for that.
- `fetch` failures, `router.refresh()`, console logging and the `loading`/`saving` spinners' timing are not modelled. A page's outgoing requests are recorded in order, and the data a `GET` returns is a parameter.
- The shallow copy `{ ...skills }` shares its nested arrays with the previous state. The model reassigns the editor's `skills` value, so the aliasing itself is not captured; the new `skills` value is what the code's mutation leaves.
- `cookies().delete` is a removal from the jar. The response headers that carry the cookie are not modelled.
- Auth.CookieStore.IsAdminAuthenticated: follows the corrected check `CheckSession`, not the code. The code accepts the cookies `{}`, `5` and `{"expiresAt":"x"}`, and clears `{"expiresAt":null}` after time 0. `Auth.CheckAsWritten` models the code's check.
- AuthRoute.CheckStatus: answers with the corrected check, so on the cookies above it differs from the code. `AuthRoute.CheckStatusAsWritten` is the code's answer.
- AuthRoute.Get: runs the corrected check through `IsAdminAuthenticated`, so it is the corrected handler, not the code's.
- ExperiencesRoute.Post: its session test is the corrected check. The code lets a request with the cookie `{}` create a record.
- SkillsRoute.Put: its session test is the corrected check. The code lets a request with the cookie `{}` save a category.
- SkillsRoute.Patch: its session test is the corrected check. The code lets a request with the cookie `{}` save a category.
- ThemeProvider.Provider.Mount: uses the corrected lookup `GetTheme`. With "constructor" stored, the code gets a prototype function and throws when it applies that function's missing colours; the model restores light instead. `Themes.LookupAsWritten` models the code's lookup.
- ThemeProvider.Provider.SetTheme: uses the corrected lookup, so an inherited name such as "constructor" selects light. In the code it throws.
- ThemeProvider.MountFallsBackToLight: is stated of the corrected lookup. For an inherited name the code throws instead of falling back.
- Themes.Browser.ApplyTheme: requires a window, because `document` does not exist without one and the code would throw. The server-side render path is not modelled.
- React rendering before mount is modelled only as the absence of a context (`UseTheme` gives its error until mounted).
- Unicode case mapping is not modelled: `toLowerCase` is ASCII-only. `trim` removes the ECMAScript white-space and line-terminator code points.

## Findings

| source | as written | input that shows it | evidently intended | confidence | as-written member | corrected member |
|---|---|---|---|---|---|---|
| lib/auth.ts:62-71 | `Date.now() > session.expiresAt` is false when `expiresAt` is absent, because the comparison with `undefined` is false, so the session is accepted | cookie `admin_session` with value `{}` | a cookie without a numeric expiry is refused | high, not executed | Auth.CheckAsWritten, Auth.AsWrittenAcceptsMissingExpiry | Auth.CheckSession, Auth.CheckAgreesOnWellFormed |
| lib/themes.ts:90-92, components/ThemeProvider.tsx:20, components/ThemeProvider.tsx:27 | `themes[id] \|\| themes.light` returns an inherited `Object.prototype` member, a function, for such ids | `getTheme("constructor")`, or "constructor" stored under "theme-preference" | every unknown id falls back to the light theme | high, not executed | Themes.LookupAsWritten, Themes.InheritedNameIsNoTheme | Themes.GetTheme, Themes.LookupAgrees |
