# portfolio_2026 — a verified model of the deterministic core

portfolio_2026 is a personal portfolio site (React, Redux Toolkit, Firebase).
Most of it is UI and network glue. Under that there is a small deterministic
core, and this Dafny project models it:

- **The client store.** The projects, experiences, educations, inbox and
  skills slices are each a list with four reducers:
  - bulk replace;
  - insert (`unshift`, or `push` for skills);
  - replace the first element with a given `_id`;
  - delete every element with a given `_id`.

  The inbox also marks a message read in place. The auth slice is a
  signed-in/signed-out session mirrored into `localStorage` and read back at
  start-up. The about slice holds one profile record. Each list slice is a
  class whose `state: seq<...>` field its methods reassign. `AuthState` and
  `LocalStorage` are classes with the fields the reducers assign.
- **The data-access layer** (`src/firebase/services.ts`). It covers:
  - the comma-list shaping of project stacks and experience skills
    (split, trim, drop empties);
  - the per-collection dispatch of `addItem` and its misspelled failure
    object;
  - the labels in `deleteItem`'s message;
  - the id guards and the `try`/`catch` replies of the update calls;
  - the empty-collection error, the `_id` tagging and the timestamp
    serialisation of `fetchCollection`, including the in-place loop over
    keys;
  - `fetchAdminDocument`.

  Firestore is an abstract database: a map from collection name to a map
  from document id to document.
- **`cleanErrorMessage`** (`src/firebase/auth.ts`), which maps Firebase auth
  error texts to friendlier ones.
- **The project archive page** (`src/pages/Projects.tsx`):
  - the filter tabs, computed by nested loops that fill a set;
  - the case-insensitive search combined with the exact-tag filter, sorted
    newest first;
  - the chip list and the "+more" rule.
- **The experience timeline** (`src/components/sections/Experience.tsx`):
  work and education records are mapped to one item type, education tags
  are built, and the merge is sorted by ending date.
- **The dashboard counters** (`src/lib/hooks.tsx`):
  - the weekly snapshot roll and its trend percentage;
  - the figures the dashboard reports;
  - the unread count of the inbox.

Shared modules:

| Module | Contents |
|---|---|
| `Wrappers` | `Option` and `Result` |
| `Documents` | Firestore values |
| `Entities` | the records of `src/types/index.ts` |
| `Seqs` | filter and take |
| `JsString` | `trim`, `split`, `join`, `includes`, `toLowerCase`, `replace` on a character |
| `StableSort` | the stable descending sort of `Array.prototype.sort` |
| `SliceSpec` | `findIndex`, replace-first and delete-by-id, as the five list slices use them |
| `UserJson` | `JSON.stringify` and `JSON.parse` for the stored user |

Dates, clocks and number parsing depend on the JavaScript runtime. They
appear as function parameters: `stamp`, `time`, `year`, `iso`, `number` and
`now`. Network failures appear as a `fault: Option<string>` parameter.

## Model

| member | source | states |
|---|---|---|
| SliceSpec.FindIndex | src/redux/features/ProjectSlice.tsx:14 | the front-to-back `findIndex` scan returns the first position whose `_id` equals the key, or -1 when none does |
| SliceSpec.FirstIndex | src/redux/features/SkillSlice.tsx:19 | the result is -1 or an index whose id is the key, and no earlier element (no element at all, for -1) carries the key |
| SliceSpec.ReplaceFirstFrame | src/redux/features/ProjectSlice.tsx:13-19 | replacing by id keeps the length; the first element with the payload's id becomes the payload, and every other position is unchanged |
| SliceSpec.ReplaceFirstAbsent | src/redux/features/ProjectSlice.tsx:14-15 | when no element carries the payload's id, the update is a no-op |
| SliceSpec.ReplaceFirstIdempotent | src/redux/features/ExperienceSlice.tsx:18-24 | applying the same update twice gives the same list as applying it once |
| SliceSpec.RemoveAll | src/redux/features/ProjectSlice.tsx:25-27 | no survivor carries the id; the result is a sub-multiset of the list; every element with another id (or none) keeps its multiplicity |
| SliceSpec.RemoveAllConcat | src/redux/features/ExperienceSlice.tsx:15-17 | deleting from a concatenation is deleting from each part, so survivors keep their original order |
| SliceSpec.RemoveAllAbsent | src/redux/features/EducationSlice.tsx:15-17 | deleting an id no element carries changes nothing |
| SliceSpec.RemoveAllIdempotent | src/redux/features/SkillSlice.tsx:15-17 | deleting the same id twice equals deleting it once |
| ProjectSlice.Projects.constructor | src/redux/features/ProjectSlice.tsx:4 | the store starts with no projects |
| ProjectSlice.Projects.SetProjects | src/redux/features/ProjectSlice.tsx:10-12 | the state becomes exactly the payload, whatever it was |
| ProjectSlice.Projects.UpdateProjectDetail | src/redux/features/ProjectSlice.tsx:13-19 | the new state is the old one with the first project of the payload's `_id` replaced (see ReplaceFirstFrame) |
| ProjectSlice.Projects.AddNewProject | src/redux/features/ProjectSlice.tsx:20-22 | the new project is prepended and the length grows by one |
| ProjectSlice.Projects.DeleteProject | src/redux/features/ProjectSlice.tsx:25-27 | the new state is the old one with every project of that `_id` removed (see RemoveAll) |
| ExperienceSlice.Experiences.constructor | src/redux/features/ExperienceSlice.tsx:6 | the store starts with no experiences |
| ExperienceSlice.Experiences.SetExperiences | src/redux/features/ExperienceSlice.tsx:12-14 | the state becomes exactly the payload |
| ExperienceSlice.Experiences.DeleteExperience | src/redux/features/ExperienceSlice.tsx:15-17 | every experience with that `_id` is removed and the rest keep their order |
| ExperienceSlice.Experiences.UpdateExperienceDetails | src/redux/features/ExperienceSlice.tsx:18-24 | only the first experience with the payload's `_id` is replaced |
| ExperienceSlice.Experiences.AddNewExperience | src/redux/features/ExperienceSlice.tsx:25-27 | the new experience is prepended and the length grows by one |
| EducationSlice.Educations.constructor | src/redux/features/EducationSlice.tsx:6 | the store starts with no qualifications |
| EducationSlice.Educations.SetEducation | src/redux/features/EducationSlice.tsx:12-14 | the state becomes exactly the payload |
| EducationSlice.Educations.DeleteEducation | src/redux/features/EducationSlice.tsx:15-17 | every qualification with that `_id` is removed and the rest keep their order |
| EducationSlice.Educations.AddNewEducation | src/redux/features/EducationSlice.tsx:18-20 | the new qualification is prepended and the length grows by one |
| EducationSlice.Educations.UpdateEducationDetails | src/redux/features/EducationSlice.tsx:21-26 | only the first qualification whose `_id` equals the payload's is replaced |
| SkillSlice.Skills.constructor | src/redux/features/SkillSlice.tsx:6 | the store starts with no skills |
| SkillSlice.Skills.SetSkills | src/redux/features/SkillSlice.tsx:12-14 | the state becomes exactly the payload |
| SkillSlice.Skills.DeleteSkill | src/redux/features/SkillSlice.tsx:15-17 | every skill with that `_id` is removed and the rest keep their order |
| SkillSlice.Skills.UpdateSkillDetails | src/redux/features/SkillSlice.tsx:18-23 | only the first skill with the payload's `_id` is replaced |
| SkillSlice.Skills.AddNewSkill | src/redux/features/SkillSlice.tsx:24-26 | unlike the other slices, the new skill is appended at the end; the length grows by one |
| MessageSlice.ReadMarkedFrame | src/redux/features/MessageSlice.tsx:14-19 | marking read keeps the length; only the first message with the id changes, and in it only `read`, which becomes true |
| MessageSlice.ReadMarkedMonotone | src/redux/features/MessageSlice.tsx:17 | a message that was read stays read |
| MessageSlice.ReadMarkedIdempotent | src/redux/features/MessageSlice.tsx:14-19 | marking the same id twice equals marking it once |
| MessageSlice.ReadMarkedAbsent | src/redux/features/MessageSlice.tsx:15-16 | marking an id no message carries changes nothing |
| MessageSlice.Inbox.constructor | src/redux/features/MessageSlice.tsx:5 | the inbox starts empty |
| MessageSlice.Inbox.SetMessages | src/redux/features/MessageSlice.tsx:11-13 | the state becomes exactly the payload |
| MessageSlice.Inbox.UpdateReadStatus | src/redux/features/MessageSlice.tsx:14-19 | the in-place update leaves the state `ReadMarked(old state, id)` |
| MessageSlice.Inbox.DeleteMessage | src/redux/features/MessageSlice.tsx:20-22 | every message with that `_id` is removed and the rest keep their order |
| MessageSlice.Inbox.AddNewMessage | src/redux/features/MessageSlice.tsx:23-25 | the new message is prepended and the length grows by one |
| AboutSlice.InitialAbout | src/redux/features/AboutSlice.tsx:4-17 | the initial profile has an empty name, no titles, an empty description, and empty contact details and URLs |
| AboutSlice.SetAboutReplaces | src/redux/features/AboutSlice.tsx:23-27 | `setAbout` yields the payload, independent of the previous profile, with no merge |
| AboutSlice.SetAboutLastWriteWins | src/redux/features/AboutSlice.tsx:23-27 | two successive `setAbout` calls equal the second alone |
| AuthSlice.Initial | src/redux/features/AuthSlice.tsx:9-16 | see the list after this table |
| AuthSlice.SignedIn | src/redux/features/AuthSlice.tsx:22-26 | the session `setCredentials` leaves keeps the invariant "signed in iff a token is held" |
| AuthSlice.SignedOut | src/redux/features/AuthSlice.tsx:31-34 | the session `logout` leaves is signed out and keeps the invariant |
| AuthSlice.RestoreAfterSetCredentials | src/redux/features/AuthSlice.tsx:9-29 | after `setCredentials` with a non-empty token, reading the state back from storage gives the same signed-in session and user |
| AuthSlice.RestoreAfterLogout | src/redux/features/AuthSlice.tsx:31-38 | after `logout`, reading the state back from storage gives the signed-out session |
| AuthSlice.LogoutIdempotent | src/redux/features/AuthSlice.tsx:36-37 | removing both keys twice leaves storage as removing them once |
| AuthSlice.LocalStorage.GetItem | src/redux/features/AuthSlice.tsx:9-10 | `getItem` returns the stored text exactly when the key is present, and null otherwise |
| AuthSlice.LocalStorage.SetItem | src/redux/features/AuthSlice.tsx:28-29 | `setItem` stores the value under the key and changes no other key |
| AuthSlice.LocalStorage.RemoveItem | src/redux/features/AuthSlice.tsx:36-37 | `removeItem` drops only that key |
| AuthSlice.AuthState.constructor | src/redux/features/AuthSlice.tsx:9-16 | the store's fields are the session `Initial` reads from storage, which keeps the invariant |
| AuthSlice.AuthState.SetCredentials | src/redux/features/AuthSlice.tsx:22-30 | the fields become user, token and signed-in; storage gains the token and the serialised user |
| AuthSlice.AuthState.Logout | src/redux/features/AuthSlice.tsx:31-38 | the fields become signed out, with no user or token; storage loses both keys |
| UserJson.ParseStringify | src/redux/features/AuthSlice.tsx:14-29 | `JSON.parse(JSON.stringify(user))` gives the user back, for null and for any name and email, escapes included |
| UserJson.ParseEscaped | src/redux/features/AuthSlice.tsx:29 | parsing an escaped string body up to its closing quote recovers the string and the rest of the text |
| Auth.CleanErrorMessage | src/firebase/auth.ts:21-30 | see the list after this table |
| Auth.TextsCarryNoCode | src/firebase/auth.ts:24-27 | neither replacement text contains any of the three codes |
| Auth.CleanIdempotent | src/firebase/auth.ts:21-30 | cleaning an already cleaned message returns it unchanged |
| Auth.CredentialCodeWins | src/firebase/auth.ts:23-27 | a message with both a credential code and the rate-limit code gives the credential text |
| ProjectArchive.TagSet | src/pages/Projects.tsx:20-21 | a tag is in the set exactly when some project's stack contains it |
| ProjectArchive.CollectTags | src/pages/Projects.tsx:20-21 | the nested loops that add every stack entry of every project produce `TagSet` |
| ProjectArchive.AllStacks | src/pages/Projects.tsx:15-34 | the tabs are the priority tags filtered against the collected tag set |
| ProjectArchive.TabsMembership | src/pages/Projects.tsx:24-26 | a tab is shown iff it is a priority tag that is "All" or is in some project's stack |
| ProjectArchive.TabsStartWithAll | src/pages/Projects.tsx:17-26 | "All" is always the first tab and no tab appears twice |
| ProjectArchive.FilteredProjects | src/pages/Projects.tsx:37-49 | the result is sorted newest first and is a sub-multiset of the archive; every listed project passes search and tab; every passing project keeps its multiplicity |
| ProjectArchive.FilteredMembership | src/pages/Projects.tsx:39-47 | a project is listed iff it is in the archive, its lower-cased title, description or some stack entry includes the lower-cased query, and the tab is "All" or in its stack |
| ProjectArchive.FilteredKeepsOrderOfTies | src/pages/Projects.tsx:48 | projects with the same date keep their archive order, because the sort is stable |
| ProjectArchive.EmptySearchShowsAll | src/pages/Projects.tsx:37-49 | an empty query on the "All" tab lists every project: a permutation of the archive |
| ProjectArchive.SearchIgnoresQueryCase | src/pages/Projects.tsx:40-43 | the query and its lower-cased form select the same projects |
| ProjectArchive.Chips | src/pages/Projects.tsx:162-164 | chips are the first (at most three) stack entries that are not "DevOps", "Full Stack" or "UI/UX", in stack order |
| ProjectArchive.NoMoreShowsAllChips | src/pages/Projects.tsx:162-170 | when "+more" is not shown, every non-category entry is a chip |
| ProjectArchive.PlainShortStackShownWhole | src/pages/Projects.tsx:162-170 | a stack of at most three entries with no category tag is shown whole |
| ProjectArchive.CutChipShowsMore | src/pages/Projects.tsx:162-170 | when more than three non-category entries exist, exactly three chips are shown and "+more" is shown |
| StableSort.SortDesc | src/pages/Projects.tsx:48 | the sort output is ordered by non-increasing key and is a permutation of its input |
| StableSort.SortDescStable | src/components/sections/Experience.tsx:46 | elements with equal keys keep their input order (stability) |
| Timeline.WorkIcon | src/components/sections/Experience.tsx:26 | the icon is the experience's own when it is present and non-empty; a missing or empty icon gives "work"; the result is never empty |
| Timeline.WorkItem | src/components/sections/Experience.tsx:18-28 | see the list after this table |
| Timeline.EduTags | src/components/sections/Experience.tsx:36-39 | see the list after this table |
| Timeline.EduItem | src/components/sections/Experience.tsx:30-44 | an education item has category education and icon "school"; title, place, major and description are copied; the tags are `EduTags` of the grade and the type; it sorts by the ending date; the period is "start year - end year" |
| Timeline.TimelineData | src/components/sections/Experience.tsx:46 | the merged list has one item per record, is sorted by `sortDate` non-increasing, and is a permutation of work items followed by education items |
| Timeline.TimelineMembership | src/components/sections/Experience.tsx:17-47 | an item is in the timeline iff it is the item of some experience or some education |
| Timeline.SortDateIgnoresStart | src/components/sections/Experience.tsx:27-43 | changing a record's starting date never changes its sort key |
| Timeline.TimelineKeepsOrderOfTies | src/components/sections/Experience.tsx:46 | items with equal dates keep the merged order: work before education, each in store order |
| Timeline.TypeTagExample | src/components/sections/Experience.tsx:38 | only the first '-' of the type is replaced: "a-b-c" gives "Qualification Type: a b-c" |
| ViewStats.Or | src/lib/hooks.tsx:22 | `v \|\| d` on a number: a missing value or 0 gives the default, any other value itself |
| ViewStats.Round | src/lib/hooks.tsx:37-39 | `Math.round` returns the integer within one half below and strictly less than one half above |
| ViewStats.PreviousWeekly | src/lib/hooks.tsx:29 | the previous week's views are never 0, so the trend never divides by zero |
| ViewStats.Roll | src/lib/hooks.tsx:25-49 | see the list after this table |
| ViewStats.WeekOverIff | src/lib/hooks.tsx:26-35 | the fractional-day test `daysDiff >= 7` equals comparing milliseconds with 7 days; a missing date never passes |
| ViewStats.TrendInIntegers | src/lib/hooks.tsx:37-39 | the rounded percentage change equals `(200(n-p)+p) div 2p` in integers |
| ViewStats.ReportOf | src/lib/hooks.tsx:53-60 | the report shows the total (0 when missing), total minus the last snapshot count (0 when missing), and the stored trend (0 when missing) |
| ViewStats.OnSnapshot | src/lib/hooks.tsx:18-62 | a missing document changes nothing and shows nothing; an existing document with view fields writes exactly `Roll` of them and shows exactly `ReportOf` them; one without view fields writes nothing and shows zeros |
| ViewStats.ReportIgnoresRoll | src/lib/hooks.tsx:25-60 | the admin flag never changes what the same call shows |
| ViewStats.NoDateNoRoll | src/lib/hooks.tsx:26-35 | without a stored snapshot date the listener never writes |
| ViewStats.ReportAfterRoll | src/lib/hooks.tsx:41-60 | after a roll is stored, the next report shows 0 views this week and the written trend |
| ViewStats.ShownTrendIsStored | src/lib/hooks.tsx:37-59 | the call that computes a new trend (100) still shows the old stored one (5) |
| ViewStats.InboxCount | src/lib/hooks.tsx:93-98 | count is the number of messages; unread is `UnreadCount` of them, at most count, and equals it iff every message's `read` is falsy |
| ViewStats.FilterCountsUnread | src/lib/hooks.tsx:97 | the `!read` filter keeps exactly `UnreadCount` messages, counted one message at a time |
| ViewStats.UnreadCountConcat | src/lib/hooks.tsx:97 | the unread count of two lists put together is the sum of their unread counts |
| Services.ShapeList | src/firebase/services.ts:73-76 | every shaped entry is trimmed, non-empty and comma-free |
| Services.ShapeListAtComma | src/firebase/services.ts:178-181 | entries before a comma come first, in order, followed by those after it |
| Services.ShapeListSpaceFront | src/firebase/services.ts:238-241 | a space after a comma never reaches an entry |
| Services.ShapeListJoin | src/components/ui/ProjectModal.tsx:131 | shaping the `", "`-join of well-formed entries (as the edit form shows a stored stack) gives exactly those entries back |
| Services.AddFailure | src/firebase/services.ts:112-114 | `addItem`'s failure object has the misspelled key `sucess` set to false and no `success` key |
| Services.AddItem | src/firebase/services.ts:65-115 | see the list after this table |
| Services.ProjectDocFields | src/firebase/services.ts:71-82 | the project document is `data` with the date converted to a timestamp and the stack shaped |
| Services.AddProjectStored | src/firebase/services.ts:70-83 | a project with a text stack and a valid date is stored under the new id as data, timestamp and shaped stack, and the call returns that id; the admin document is unchanged |
| Services.AddSkillStored | src/firebase/services.ts:84-89 | a skill is stored under the new id as sent with `order` replaced by `Number(order)`, and the call returns that id; a failing call stores nothing and returns the failure object |
| Services.AddDatedStored | src/firebase/services.ts:90-108 | an experience or qualification with invalid dates fails with nothing written; with valid dates it is stored under the new id with both dates as timestamps and every other field as sent, and the admin document is unchanged; a failing call stores nothing |
| Services.DatedDoc | src/firebase/services.ts:90-105 | the document exists iff both dates are valid; it has the keys of the form plus the two dates, both as timestamps, and every other field as given |
| Services.AddProjectNeedsTextStack | src/firebase/services.ts:71-77 | a project whose stack is not a string fails with the TypeError text before anything is written |
| Services.DeleteLabel | src/firebase/services.ts:124-132 | the label is Project, Skill or Experience exactly for those three collections, and "Education/Qualification" for every other name |
| Services.DeleteItem | src/firebase/services.ts:118-137 | on success the collection is the old one minus the id, the admin document and other collections are unchanged, and the message is "<label> Deleted Successfully"; a failure changes nothing and returns the error text |
| Services.DeleteMessageLabel | src/firebase/services.ts:124-132 | deleting a message reports "Education/Qualification Deleted Successfully" |
| Services.UpdateProject | src/firebase/services.ts:152-193 | a null id throws before the `try`; an invalid date fails and writes nothing; success happens iff the project exists, the date is valid and the call does not fail, and then the database is exactly the old one with the title, description, version, date, shaped stack and url fields written over that project; any failure writes nothing |
| Services.UpdateProjectStored | src/firebase/services.ts:173-188 | after a successful update the stored stack is the shaped list and the date is the timestamp |
| Services.UpdateSkill | src/firebase/services.ts:195-213 | a null or empty id gives "Skill Id Not Found" and writes nothing; otherwise it succeeds iff the skill exists and the call does not fail, and then the database is exactly the old one with the form's fields written over that skill; any failure writes nothing |
| Services.ExperienceFields | src/firebase/services.ts:234-242 | the fields are ready iff both dates are valid and `skills` is a string, in which case `skills` is the shaped list |
| Services.UpdateExperience | src/firebase/services.ts:215-248 | a field error becomes the failure reply with nothing written; success happens iff the fields are ready, the entry exists and the call does not fail, and then the database is exactly the old one with `ExperienceFields` written over that entry; any failure writes nothing |
| Services.EditedExperienceNeverSaved | src/firebase/services.ts:238-241 | when `skills` arrives as a list, as the edit form sends it, nothing is written and the reply is a failure |
| Services.UpdateExperienceFixed | src/firebase/services.ts:215-248 | the corrected update succeeds iff the dates are valid, `skills` is a string or a list, the entry exists and the call does not fail; then the database is exactly the old one with the dated document and the stored skill list written over that entry; any failure writes nothing |
| Services.EditedExperienceSaved | src/firebase/services.ts:238-241 | with the correction, the edit form's list is stored when the dates are valid and the entry exists |
| Services.FixedAgreesOnText | src/firebase/services.ts:238-241 | for a comma-separated string, the correction behaves exactly as the original |
| Services.UpdateEducation | src/firebase/services.ts:250-282 | success happens iff both dates are valid, the qualification exists and the call does not fail; then the database is exactly the old one with `DatedDoc` of the form written over that qualification, so both dates are stored as timestamps and every other form field as given; any failure writes nothing |
| Services.Serialized | src/firebase/services.ts:35-42 | serialising keeps the keys, turns each timestamp into its ISO text and leaves every other value unchanged |
| Services.SerializeStamps | src/firebase/services.ts:37-42 | the in-place loop over the keys of the copy produces `Serialized` |
| Services.FetchCollection | src/firebase/services.ts:28-62 | an empty snapshot is an error naming the collection, not an empty list; otherwise there is one tagged, serialised item per document, in snapshot order |
| Services.TaggedId | src/firebase/services.ts:44 | every item carries `_id`: the document id, unless the stored data has its own `_id`, which is spread later and wins |
| Services.TaggedFields | src/firebase/services.ts:35-44 | tagging adds only `_id` and changes only timestamp values |
| Services.FetchAdminDocument | src/firebase/services.ts:17-27 | a missing admin document is the error "Admin document does not exist."; otherwise the result has `_id`, which is "admin" unless `about` holds its own `_id` (spread later, it wins), every field of `about`, and no other key |

Longer contracts, referenced from the table:

- **AuthSlice.Initial.**
  - Start-up fails iff a non-empty stored user does not parse.
  - A non-empty stored user becomes the parsed one.
  - The session is signed in iff a non-empty token is stored. The token is
    the stored one, or null when it is absent or empty.
  - The user is null when no non-empty user is stored.
- **Auth.CleanErrorMessage.**
  - A credential code ("auth/user-not-found" or "auth/invalid-credential")
    gives the invalid-login text.
  - Otherwise, "auth/too-many-requests" gives the too-many-attempts text.
  - Any other message is returned unchanged.
- **Timeline.WorkItem.** A work item has:
  - category work;
  - title = role, place = company, description = responsibilities;
  - tags = the skills, or none when they are missing;
  - the icon `WorkIcon` of the experience's icon, never empty;
  - the ending date as its sort key;
  - the period "start year - end year".
- **Timeline.EduTags.**
  - There is one tag per non-empty grade or type.
  - The grade tag comes first and is present iff the grade is non-empty.
  - The type tag comes last and has the first '-' of the type replaced by a
    space.
  - No tag is empty.
- **ViewStats.Roll.**
  - A snapshot is written iff the caller is the admin, a snapshot date is
    stored, and at least 7 days have passed.
  - The snapshot records now and the total.
  - The weekly views written are the total minus the last snapshot count.
- **Services.AddItem.**
  - A collection outside projects, skills, qualifications and experiences
    resolves to `undefined` and writes nothing.
  - A failure writes nothing and returns the misspelled failure object.
  - A success returns the new id, and that document now exists.
  - Success happens iff the call does not fail and the collection is
    skills, or projects with a text stack and a valid date, or
    qualifications or experiences with two valid dates.
  - No other collection changes, and the admin document never changes.

## Left out

- Firebase SDK calls are not modelled as network calls:
  - `getDoc`, `getDocs`, `addDoc`, `updateDoc`, `deleteDoc`, `onSnapshot`
    and the sign-in calls are foreign code.
  - The model keeps their effect on an abstract database.
  - Any failure is a `fault` parameter holding the error text.
  - Concurrency and listener subscription are not modelled.
- Read failures are not modelled. A rejected `getDoc` or `getDocs`
  (services.ts:19, 30) propagates to the caller unchanged, so
  `FetchAdminDocument` and `FetchCollection` have no `fault` parameter.
- `incrementViewCount` (services.ts:140-150) is left out. It is a single
  server-side atomic increment with no client logic.
- Uploads (`src/firebase/storage.ts`, `src/lib/utils.ts`) are network I/O.
- Date handling is not modelled:
  - Date parsing, `toISOString`, `getYear`, `toTime` and `new Date()`
    depend on the runtime, the time zone and the clock.
  - They are the parameters `stamp`, `iso`, `year`, `time` and `now`.
  - A date field that is not a string is treated as an invalid date.
- `Number(data.order)` has float and NaN semantics. It is the parameter
  `number`.
- `Math.round` is modelled as floor(x + 1/2) over reals. NaN and
  floating-point rounding are not modelled.
- The error texts the SDK and V8 produce are not part of this model:
  - "Timestamp seconds out of range: NaN", "No document to update" and the
    TypeError texts of `.split` are stand-ins.
  - Only which call fails, and that its text becomes the reply, is modelled.
- `UserJson` covers only part of `JSON.parse`:
  - It covers the shape `JSON.stringify` gives the stored user: null, or
    `{"name":…,"email":…}` with string or null values.
  - Any other stored text is a parse failure, although `JSON.parse` would
    accept other valid JSON.
- JsString.ToLower: lower-cases ASCII letters only. It leaves out Unicode
  case mapping beyond ASCII.
- Document ids are not validated. An empty or slash-containing id, which
  makes `doc()` throw, is not modelled. Nor is a null id: the milestone
  form passes its `mileStoneId`, which starts as null, to
  `updateExperience` and `updateEducation`. There `doc()` throws inside
  the `try`, so the call would return the failure reply. The model takes
  the id as a string. `UpdateProject` and `UpdateSkill` do model their
  null-id guards.
- The snapshot order of `getDocs` is a parameter (the `docs` sequence).
- Inbox wiring is left out. The inbox reducer is not registered in the
  store, and the component calls an update function that services does not
  define. `MessageSlice` is modelled on its own.
- React components, modals, layouts, routing, animations and the random
  shuffles are UI only.
- ProjectArchive.FilteredProjects: the sort key is an integer parameter
  `time`. The NaN that `new Date(...).getTime()` gives for an invalid date
  would make the comparator inconsistent, and this is not modelled.
- ViewStats.TrendInIntegers: stated only for a positive previous week. A
  stored weekly count can be negative. For such a count the trend is
  specified only by its definition, `Math.round` of the real quotient.
- AuthSlice.AuthState.constructor: requires that the stored user parses.
  When it does not, `JSON.parse` throws while the store module loads.
  `Initial` returns that case as `None`.
- ProjectArchive.ShowMore: "+more" is shown when the unfiltered stack has
  more than three entries. It can show while every visible entry is already
  a chip. No lemma exhibits such a case.

## Findings

| source | as written | input that shows it | evidently intended | confidence | as-written member | corrected member |
|---|---|---|---|---|---|---|
| src/firebase/services.ts:238-241 | `updateExperience` calls `formData.skills.split(",")`, but its only caller (src/components/ui/MileStoneModal.tsx:87-90, 106) has already split the skills into an array | editing any experience in the milestone form, e.g. skills `["React", "Node"]`: `.split` is not a function, the `catch` returns `success: false` and nothing is written | the edited list is stored, and a comma-separated string is still shaped as before | not executed | Services.EditedExperienceNeverSaved | Services.EditedExperienceSaved |
