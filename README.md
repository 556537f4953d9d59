# Partnership management: a Dafny model of its decision logic

This project models the logic of an admin application for managing partners, their contacts, events and user accounts. The server is Express with Prisma. The client is React with zustand stores and zod form schemas. The model covers the parts of both that decide something:

- the list queries behind every table, with their paging, filters, free-text search, sort and total count;
- the session gate and the role gate in front of the API, login and logout, and the password rules of the user update;
- every form schema, as zod 3 evaluates it;
- the small stateful widgets: the tag input, the sector checkboxes, the table's row selection and pagination, the global confirmation modal, the collapsible menu entry and the boolean hook;
- the pure mappers: enum labels with their fallbacks, the "other → free text" display rules, route and menu filtering by role, join rows to id lists, and avatar initials.

Each source file becomes one Dafny module; shared modules hold what several of them use:

- `Wrappers` holds `Option` and `Result`.
- `Text` models JavaScript `trim` and lower-casing.
- `Seqs` holds `Array.prototype.filter` and its lemmas.
- `Domain` holds the enums and the user row.
- `Store` is a reference semantics of the Prisma calls the services make: `where`, `count`, and `findMany` with `orderBy`/`skip`/`take`/`omit`.
- `ListQuery` is the query builder the four list services share.
- `Forms` is the part of zod's object, union, optional and refine rules the forms use.
- `Http` holds the response and cookie effects.

Server handlers are methods that return their outcome. Stores and hooks that hold state are classes whose methods state the whole new state.

bcrypt's `compare` and `hash`, JWT `sign` and `verify`, zod's e-mail check, the router's `isActive` and `new Date(text)` are not modelled; they are function parameters. The database is a `seq` of rows passed in and returned.

Where the code and the documented intent differ, the code is modelled:

- The partner and event list queries have an empty `include`, so their rows carry no associations.
- An unknown username at login gets its own message, which differs from the wrong-password message.
- `catchError` treats `null` as an object (`typeof null === "object"`), so a `null` server message becomes the generic text rather than falling back to `error.message`.

## Model

| member | source | states |
|---|---|---|
| Text.Trim | frontend/src/components/tags-input/TagsInput.tsx:25 | the trimmed text is no longer than the text, neither starts nor ends with white space, and is empty exactly when the text is blank |
| Text.TrimIdempotent | frontend/src/components/tags-input/TagsInput.tsx:25 | trimming twice is trimming once |
| Text.Lower | frontend/src/components/tags-input/TagsInput.tsx:25 | lower-casing keeps the length, and maps each character to its lower-case form |
| Text.TrimLowerCommute | frontend/src/components/tags-input/TagsInput.tsx:25 | trimming and lower-casing may be done in either order |
| Store.Count | server/src/services/user.service.ts:174 | `count` is rejected exactly when the where-clause names an unknown column, and otherwise is the number of matching rows |
| Store.Sort | server/src/services/user.service.ts:168-172 | the order `findMany` returns for an `orderBy` holds exactly the rows it was given |
| Store.SortSorted | server/src/services/user.service.ts:168-172 | that order is sorted by the given column and direction |
| Store.Window | server/src/services/user.service.ts:144-147 | `skip`/`take` returns at most `take` rows, each a given row, and everything when neither is set |
| Store.Project | server/src/services/user.service.ts:139-141 | `omit` removes exactly the omitted columns and keeps every row and every other value |
| Store.FindMany | server/src/services/user.service.ts:174 | `findMany` fails exactly for an unknown column, a negative `skip` or a negative `take` (Prisma's reading of a negative `take` is not modelled, see Left out), and otherwise returns the sorted, windowed, projected matching rows |
| Store.FindManyRowsMatch | server/src/services/user.service.ts:174 | every row `findMany` returns is a stored row satisfying the where-clause, minus the omitted columns |
| Store.FindManyAgreesWithCount | server/src/services/user.service.ts:174 | without a window, `findMany` and `count` agree on the same where-clause |
| ListQuery.SortOf | server/src/services/contact.service.ts:40-44 | an `orderBy` is set exactly when `sort.column` is non-empty, and then it is that one column in that direction |
| ListQuery.PageOf | server/src/services/contact.service.ts:15-18 | a page size of 0 gives every row; otherwise a page has at most `pageSize` rows |
| ListQuery.ToCond | server/src/services/contact.service.ts:20-27 | a filter entry on a scalar means equality and one on an array means membership |
| ListQuery.BuildQuery | server/src/services/contact.service.ts:14-44 | the built query has skip `pageIndex*pageSize` and take `pageSize` exactly when the page size is non-zero; its sort is `SortOf`; its where-clause holds exactly for rows that satisfy every filter and, when searching, contain the text in a search column; it names an unknown column exactly when the descriptor does |
| ListQuery.AndMeaning | server/src/services/contact.service.ts:20-27 | the built `AND` holds exactly when every filter entry holds |
| ListQuery.OrMeaning | server/src/services/contact.service.ts:29-38 | the built `OR` holds exactly when some search column contains the text, case-insensitively |
| ListQuery.WindowIsPage | server/src/services/contact.service.ts:15-18 | the built skip/take select exactly page `pageIndex` |
| ListQuery.RunList | server/src/services/contact.service.ts:46-49 | the service answers exactly when the descriptor is admissible, with a total counting every match and rows equal to the reference page |
| ListQuery.BuiltQueryAnswers | server/src/services/contact.service.ts:46-49 | the store's answers to the built query are the reference count and page |
| ListQuery.TotalIgnoresPagination | server/src/services/contact.service.ts:46-49 | the total does not depend on the page asked for |
| ListQuery.PageRowsMatch | server/src/services/contact.service.ts:15-38 | a page has at most `pageSize` rows, each a stored row that matches |
| ListQuery.ZeroPageSizeReturnsAll | server/src/services/contact.service.ts:15-18 | page size 0 returns every match |
| ListQuery.PageSorted | server/src/services/contact.service.ts:40-44 | with a sort column the page comes out in that column's order |
| ListQuery.PagesTile | server/src/services/contact.service.ts:15-18 | consecutive pages laid end to end neither skip nor repeat a row |
| ListQuery.FiltersConjoin | server/src/services/contact.service.ts:20-27 | filter entries are conjoined: splitting the list splits the condition |
| ListQuery.NoSearchNoFilterMatchesAll | server/src/services/contact.service.ts:20-38 | no search text and no filters match every row |
| ListQuery.SearchIgnoresCase | server/src/services/contact.service.ts:29-38 | searching for the lower-cased text finds the same rows |
| UserService.ListUsers | server/src/services/user.service.ts:128-184 | `listUsers` answers exactly for an admissible descriptor; its total counts every match, its rows are the page with `password` omitted and the caller's row first, and no row carries a password |
| UserService.PinCurrentUser | server/src/services/user.service.ts:177-181 | the in-place sort leaves the array equal to the caller-first order of the page |
| UserService.SplitByCaller | server/src/services/user.service.ts:177-181 | one pass splits the page into the caller's rows and the others, each in order |
| UserService.CurrentUserFirstIsPermutation | server/src/services/user.service.ts:177-181 | the reordered page holds exactly the fetched rows |
| UserService.CurrentUserFirstLength | server/src/services/user.service.ts:177-181 | the reordered page has the page's length |
| UserService.CurrentUserFirstMembers | server/src/services/user.service.ts:177-181 | every row of the reordered page was fetched |
| UserService.CallerOnTop | server/src/services/user.service.ts:177-181 | when the caller's row is on the page it comes first and the others keep their order |
| UserService.CallerAbsentKeepsOrder | server/src/services/user.service.ts:177-181 | when the caller's row is not on the page nothing moves |
| UserService.ThrownMessage | server/src/services/user.service.ts:62-86 | every service rejection except the store's own carries a message |
| UserService.ApplyPatch | server/src/services/user.service.ts:96-102 | an update keeps the id and username, writes every field the patch supplies (name, password, email, phone, role, department, active flag, password flag) and keeps every field it omits |
| UserService.UpdateById | server/src/services/user.service.ts:96-102 | `update({ where: { id } })` changes only the row with that id |
| UserService.FindAfterUpdate | server/src/services/user.service.ts:96-102 | looking the row up after the update gives the patched row |
| UserService.UpdateUser | server/src/services/user.service.ts:46-105 | for a non-admin requester or an admin editing their own account, a new password without a current one, a missing user and a wrong current password are rejected in that order; an admin editing someone else skips these checks; a truthy trimmed new password shorter than 6 is rejected; otherwise the stored row is patched; the returned flag is whether a new password was given; nothing is written on failure |
| UserService.NewPasswordIsHashed | server/src/services/user.service.ts:84-92 | a new password is stored hashed and raises `hasPasswordChanged`; `currentPassword` is never stored |
| UserService.AbsentPasswordKeepsStored | server/src/services/user.service.ts:84-94 | without a `password` in the payload the stored hash is untouched |
| UserService.BlankPasswordOverwritesStored | server/src/services/user.service.ts:51-98 | as written, a blank `password` is written to the store verbatim (see Findings) |
| UserService.IntendedPatchRotatesOnlyOnNewPassword | server/src/services/user.service.ts:82-94 | corrected: the stored password changes exactly when a truthy trimmed new password is given, and then to its hash |
| ContactService.ListContacts | server/src/services/contact.service.ts:4-50 | `listContacts` is the shared list query over name, email and phone |
| ContactService.SearchPageOfContacts | server/src/services/contact.service.ts:15-49 | a search on any page gives at most a page of rows, each a stored contact with the search text in its name, email or phone whatever the case, and a total independent of the page |
| PartnerService.ListPartners | server/src/services/partner.service.ts:4-53 | `listPartners` is the shared list query over name, description, address and sector; with an empty `include` its rows are stored rows |
| EventService.ListEvents | server/src/services/event.service.ts:4-51 | `listEvents` is the shared list query over title and description, whatever the requesting user |
| Domain.ParseRole | frontend/src/types/enum/app-enum.ts:1-4 | a role's string names exactly that role |
| Domain.ParseDepartment | frontend/src/types/enum/app-enum.ts:14-20 | a department's string names exactly that department |
| Domain.ParsePartnerType | frontend/src/types/enum/app-enum.ts:22-26 | a partner type's string names exactly that type |
| Domain.ParsePartnerSector | frontend/src/types/enum/app-enum.ts:28-34 | a sector's string names exactly that sector |
| Domain.ParsePartnerRank | frontend/src/types/enum/app-enum.ts:36-42 | a rank's string names exactly that rank |
| Domain.ParseEventStatus | frontend/src/types/enum/app-enum.ts:6-12 | a status's string names exactly that status |
| Domain.WithoutPassword | server/src/services/user.service.ts:12-14 | the public form of a user keeps every column but the password, each with its value |
| Domain.FindById | server/src/services/user.service.ts:7-18 | `findUnique` by id returns the row with that id, if any |
| Domain.FindByUsername | server/src/services/user.service.ts:20-28 | `findUnique` by username returns a row with that username, if any |
| Domain.FindByOwnUsername | server/src/services/user.service.ts:20-28 | with unique usernames, looking a stored user up by its username finds exactly that user |
| Domain.SetPasswordChanged | server/src/services/user.service.ts:119-126 | setting the flag changes only that user's flag |
| Domain.FindAfterSetPasswordChanged | server/src/services/user.service.ts:119-126 | after setting the flag, the user is found with the new flag |
| AuthMiddleware.ProtectAuth | server/src/middleware/auth-middleware.ts:8-56 | no token or an empty one gives 400, a failing verification is passed to `next(error)`, an unknown id gives 400, an inactive user gets the cookie cleared and 406 "suspended", a user with the password flag gets the cookie cleared and 406 "expired"; only an active user with the flag clear is attached and passed on |
| AuthMiddleware.Finish | server/src/middleware/auth-middleware.ts:10-55 | each decision finishes with its status: 400 for no token or unknown user, 406 for suspended or stale, `next(error)` for a bad token, `next()` only when admitted |
| AuthMiddleware.NoTokenNoLookup | server/src/middleware/auth-middleware.ts:10-15 | without a token nothing is verified or looked up |
| AuthMiddleware.SuspensionBeforeStaleness | server/src/middleware/auth-middleware.ts:25-49 | an inactive user is reported suspended even when its password flag is also set |
| AuthMiddleware.AdmittedExactly | server/src/middleware/auth-middleware.ts:17-52 | exactly an active user with the flag clear is admitted, and it is attached without its password |
| AuthMiddleware.ProtectRoles | server/src/middleware/auth-middleware.ts:58-66 | an empty allow-list admits anyone; otherwise the user's role must be listed, or the answer is 403 |
| AuthController.SessionCookie | server/src/controllers/auth.controller.ts:27-35 | the session cookie is `jwt`, httpOnly, sameSite lax, with a 30-day max age |
| AuthController.DecideLogin | server/src/controllers/auth.controller.ts:11-40 | an unknown username is reported exactly when no user has it; for the user found under the username, the account is reported suspended exactly when it is inactive, the login succeeds exactly when it is active and the password compares equal, and the password is reported wrong exactly when it is active and the compare fails |
| AuthController.Login | server/src/controllers/auth.controller.ts:8-44 | a rejected login changes nothing and answers 401 with its message; a successful one clears the user's password flag, sets the session cookie and answers with the user without its password |
| AuthController.InactiveRefusedWhateverPassword | server/src/controllers/auth.controller.ts:17-19 | with unique usernames, an inactive user is refused as suspended whatever password is typed and whatever the compare answers |
| AuthController.RejectionsDistinguishUnknownUsername | server/src/controllers/auth.controller.ts:13-15 | the unknown-username message differs from the wrong-password message |
| AuthController.Logout | server/src/controllers/auth.controller.ts:56-67 | logout always clears the cookie and reports success |
| AuthController.ValidateLoginData | server/src/controllers/auth.controller.ts:70-78 | `next()` exactly when the body parses, otherwise `next(error)` |
| LoginSchema.Parse | server/src/types/zod.ts:3-6 | the body parses exactly when the username is a non-empty string and the password a string of at least 6 characters; a failure reports at least one issue |
| LoginSchema.UsernameIssues | server/src/types/zod.ts:4 | the username has no issue exactly when it is a non-empty string |
| LoginSchema.PasswordIssues | server/src/types/zod.ts:5 | the password has no issue exactly when it has at least 6 characters |
| LoginSchema.BoundsAsWritten | server/src/types/zod.ts:4-5 | the password bound is inclusive and the username is not trimmed |
| LoginSchema.BothIssuesReported | server/src/types/zod.ts:3-6 | both fields' issues are reported together |
| Sessions.LoginThenGateAdmits | server/src/controllers/auth.controller.ts:23-35 | the cookie a successful login sets gets through the session gate as the same user, flag cleared |
| Sessions.StalesEverySession | server/src/services/user.service.ts:84-92 | after an update with a new password, every token of that user is turned away, as stale or, for an inactive account, as suspended |
| Sessions.LoginRevivesOlderTokens | server/src/controllers/auth.controller.ts:25 | the expiry flag is per user, so a later login re-admits every older token of that user |
| Tagging.NormalizeEmptyIffBlank | frontend/src/components/tags-input/TagsInput.tsx:25-28 | a candidate is dropped as empty exactly when it is blank |
| Tagging.NormalFixedPoint | frontend/src/components/tags-input/TagsInput.tsx:25 | normal tags are exactly the fixed points of trim-then-lower-case |
| Tagging.OfferRefusals | frontend/src/components/tags-input/TagsInput.tsx:24-30 | `addTag` proposes nothing exactly when the text is blank, its tag is present, or `maxTags` is reached |
| Tagging.OfferAppendsOne | frontend/src/components/tags-input/TagsInput.tsx:33 | a proposal is the old list with exactly the new tag at the end |
| Tagging.ProposalKeepsWellFormed | frontend/src/components/tags-input/TagsInput.tsx:24-35 | `addTag` keeps the list distinct, normalised and within `maxTags` |
| Tagging.DisabledRefusesEveryText | frontend/src/components/tags-input/TagsInput.tsx:88-91 | once `maxTags` is reached the input is disabled, and `addTag` refuses every text |
| Tagging.Without | frontend/src/components/tags-input/TagsInput.tsx:37-39 | `removeTag` keeps only tags that differ from the removed one |
| Tagging.WithoutExactly | frontend/src/components/tags-input/TagsInput.tsx:37-39 | removing a tag takes away every copy of it and nothing else |
| Tagging.WithoutKeepsWellFormed | frontend/src/components/tags-input/TagsInput.tsx:37-39 | removing a tag keeps the list invariant |
| Tagging.RemoveLastDropsLast | frontend/src/components/tags-input/TagsInput.tsx:45-46 | Backspace on a list without duplicates drops just the last tag |
| Tagging.SplitFromLosesOnlySeparators | frontend/src/components/tags-input/TagsInput.tsx:53 | the split pieces, laid end to end, are the text without its commas and white space |
| Tagging.PiecesAreWords | frontend/src/components/tags-input/TagsInput.tsx:53 | every pasted piece is non-empty and has no separator |
| Tagging.CandidatesAreNormal | frontend/src/components/tags-input/TagsInput.tsx:53-54 | every tag a paste proposes is normal |
| Tagging.LastOfferAddsAtMostOne | frontend/src/components/tags-input/TagsInput.tsx:50-55 | as written, a paste grows the list by at most one tag |
| Tagging.PasteKeepsOnlyLastPiece | frontend/src/components/tags-input/TagsInput.tsx:50-55 | as written, pasting "a,b" into an empty list keeps only "b" (see Findings) |
| Tagging.AddAllKeepsEveryCandidate | frontend/src/components/tags-input/TagsInput.tsx:54 | adding the pieces one after another keeps every one unless the bound is reached |
| Tagging.IntendedPasteKeepsEveryPiece | frontend/src/components/tags-input/TagsInput.tsx:50-55 | corrected: every pasted piece's tag ends up in the list unless the bound is reached |
| Tagging.IntendedPasteKeepsWellFormed | frontend/src/components/tags-input/TagsInput.tsx:50-55 | corrected paste keeps the list invariant |
| Tagging.IntendedPasteKeepsBoth | frontend/src/components/tags-input/TagsInput.tsx:50-55 | corrected: pasting "a,b" into an empty list keeps both |
| Tagging.TagsInput.AddTag | frontend/src/components/tags-input/TagsInput.tsx:24-35 | on a proposal the parent stores it and the input is cleared; otherwise nothing changes; the invariant is kept |
| Tagging.TagsInput.SetInput | frontend/src/components/tags-input/TagsInput.tsx:85 | typing sets the input to the field's text and leaves the tags alone |
| Tagging.TagsInput.RemoveTag | frontend/src/components/tags-input/TagsInput.tsx:37-39 | the list loses every copy of the tag; the invariant is kept |
| Tagging.TagsInput.HandleKeyDown | frontend/src/components/tags-input/TagsInput.tsx:41-48 | Enter or comma submits the input; Backspace on an empty input removes the last tag; any other key changes nothing |
| Tagging.TagsInput.HandlePaste | frontend/src/components/tags-input/TagsInput.tsx:50-55 | the list becomes the last proposal the paste made |
| AccountPage.RefineIssues | frontend/src/pages/private/account/AccountPage.tsx:84-142 | the refinement reports nothing unless the password is being edited |
| AccountPage.RefineAcceptsExactly | frontend/src/pages/private/account/AccountPage.tsx:84-142 | while editing, accepted exactly when the three fields are non-blank after trim, the new one has at least 6 characters, equals the confirmation and differs from the current one |
| AccountPage.BlankNewPasswordReportedTwice | frontend/src/pages/private/account/AccountPage.tsx:87-120 | a blank new password is reported both as missing and as too short |
| AccountPage.Payload | frontend/src/pages/private/account/AccountPage.tsx:182-193 | the payload takes username, role, department and isActive from the loaded user, profile fields from the form, and trimmed passwords defaulting to "" |
| AccountPage.AcceptedChangeMeetsServiceRules | frontend/src/pages/private/account/AccountPage.tsx:84-193 | an accepted password change meets the service's own password rules |
| AccountPage.ProfileSaveBlanksStoredPassword | frontend/src/pages/private/account/AccountPage.tsx:190 | a save without a new password sends "", which the service as written stores (see Findings) |
| AccountPage.DepartmentLabel | frontend/src/pages/private/account/AccountPage.tsx:33-41 | a known department gets that department's own label; anything else, and only that, gets "Không xác định" |
| AccountPage.DepartmentLabelsDistinct | frontend/src/pages/private/account/AccountPage.tsx:33-41 | different departments get different labels |
| AccountPage.RoleLabel | frontend/src/pages/private/account/AccountPage.tsx:43-46 | the administrator label is shown exactly for ADMIN |
| AccountPage.ResetValues | frontend/src/pages/private/account/AccountPage.tsx:54-64 | `onResetForm` sets the id and name from the user, email and phone from the user or "" when missing, and empties every password field |
| AccountPage.SaveAfterResetEchoesUser | frontend/src/pages/private/account/AccountPage.tsx:54-64 | saving a freshly reset form sends the user's own id, name, email, phone and account fields back with empty passwords, and the refinement accepts it |
| AccountPage.AccountPageState.FetchUserData | frontend/src/pages/private/account/AccountPage.tsx:160-169 | a successful fetch stores the user and resets the form; a failed one only raises an error notice |
| AccountPage.AccountPageState.StartPasswordChange | frontend/src/pages/private/account/AccountPage.tsx:343 | the "change password" button opens the section |
| AccountPage.AccountPageState.CancelPasswordChange | frontend/src/pages/private/account/AccountPage.tsx:428-431 | cancelling the section closes it and empties its three fields |
| AccountPage.AccountPageState.DiscardChanges | frontend/src/pages/private/account/AccountPage.tsx:445-446 | discarding resets the form from the loaded user and closes the section |
| AccountPage.AccountPageState.OnSubmit | frontend/src/pages/private/account/AccountPage.tsx:173-203 | nothing is sent before the user is loaded; otherwise the payload is sent; on success the page signs out when a password was changed, and otherwise shows a saved notice |
| AccountPage.ProfileSaveSendsEmptyPassword | frontend/src/pages/private/account/AccountPage.tsx:182-193 | a save made without opening the password section sends empty passwords |
| Forms.StringMin | frontend/src/pages/private/user/list/panel/UserPanel.tsx:28-29 | `z.string().min(n)` accepts exactly strings of at least n characters and stops the parse on a non-string |
| Forms.Union | frontend/src/pages/private/user/list/panel/UserPanel.tsx:41-44 | a union is accepted when either branch is, and stops the parse only when both branches stopped |
| Forms.Both | frontend/src/pages/private/user/list/panel/UserPanel.tsx:27-45 | an object reports both fields' issues and is accepted only when both are |
| Forms.Refined | frontend/src/pages/private/user/list/panel/UserPanel.tsx:46-58 | the refinement's issue is added only when no field stopped the parse and the predicate fails |
| Forms.EnumList | frontend/src/pages/private/partner/list/panel/PartnerPanel.tsx:50-53 | an enum array is accepted exactly when every element is a member and there are at least `min` of them |
| Forms.Optional | frontend/src/pages/private/partner/list/panel/PartnerPanel.tsx:40-42 | `optional` accepts `undefined` and otherwise defers to the inner schema |
| Forms.Nullable | frontend/src/pages/private/partner/list/panel/PartnerPanel.tsx:45-47 | `nullable` accepts `null` and otherwise defers to the inner schema |
| Forms.Defaulted | frontend/src/pages/private/partner/list/panel/PartnerPanel.tsx:44 | `default(d)` gives d for a missing field and the value otherwise |
| UserPanel.EmailVerdict | frontend/src/pages/private/user/list/panel/UserPanel.tsx:30-35 | the e-mail is accepted exactly when absent, null, "" or a valid address |
| UserPanel.PasswordVerdict | frontend/src/pages/private/user/list/panel/UserPanel.tsx:41-44 | the password is accepted exactly when "" or at least the bound long |
| UserPanel.AcceptsExactly | frontend/src/pages/private/user/list/panel/UserPanel.tsx:26-58 | the form is accepted exactly when every field holds an acceptable value and, without an id, the password is not empty |
| UserPanel.CreateRequiresPassword | frontend/src/pages/private/user/list/panel/UserPanel.tsx:46-58 | creating an account needs a non-empty password of at least the bound |
| UserPanel.EditMayKeepPassword | frontend/src/pages/private/user/list/panel/UserPanel.tsx:46-58 | editing may leave the password empty |
| UserPanel.InitFormValuesIssues | frontend/src/pages/private/user/list/panel/UserPanel.tsx:60-69 | the initial values are refused for the name, the username and the missing password |
| UserPanel.ShortPasswordPassesFormNotLogin | frontend/src/pages/private/user/list/panel/UserPanel.tsx:43 | as written, an account created with a 3 to 5 character password fails the login schema (see Findings) |
| UserPanel.ShortPasswordExample | frontend/src/pages/private/user/list/panel/UserPanel.tsx:43 | such an account exists: username "abc", password "abc" |
| UserPanel.IntendedCreateCanSignIn | frontend/src/pages/private/user/list/panel/UserPanel.tsx:43 | corrected: with bound 6, every account the form creates passes the login schema |
| ContactPanel.EmailVerdict | frontend/src/pages/private/contact/list/panel/ContactPanel.tsx:21-24 | the e-mail is accepted exactly when "" or a valid address |
| ContactPanel.AcceptsExactly | frontend/src/pages/private/contact/list/panel/ContactPanel.tsx:19-29 | a contact is accepted exactly with a name, an e-mail that is "" or valid, optional phone, description and id, and a boolean isActive |
| ContactPanel.MissingEmailRefused | frontend/src/pages/private/contact/list/panel/ContactPanel.tsx:21-24 | a missing e-mail stops the parse with a union error |
| ContactPanel.InitFormValuesIssues | frontend/src/pages/private/contact/list/panel/ContactPanel.tsx:31-37 | only the name rule refuses the initial values |
| PartnerPanel.AcceptsExactly | frontend/src/pages/private/partner/list/panel/PartnerPanel.tsx:38-55 | a partner is accepted exactly with a name, a known rank and type, at least one known sector, and every other field absent or of its type |
| PartnerPanel.AcceptedContactIdsAreStrings | frontend/src/pages/private/partner/list/panel/PartnerPanel.tsx:44 | an accepted form always yields a list of string contact ids |
| PartnerPanel.InitFormValuesIssues | frontend/src/pages/private/partner/list/panel/PartnerPanel.tsx:57-70 | the initial values are refused for the name, the null type and the empty sector list |
| PartnerPanel.ToggleSector | frontend/src/pages/private/partner/list/panel/PartnerPanel.tsx:344-357 | a toggle appends the sector when checked and absent, and removes it when unchecked; a non-array value counts as empty |
| PartnerPanel.ToggledMembers | frontend/src/pages/private/partner/list/panel/PartnerPanel.tsx:344-357 | after a toggle the sector is present exactly when checked; every other sector is as before |
| PartnerPanel.ToggledKeepsDistinct | frontend/src/pages/private/partner/list/panel/PartnerPanel.tsx:349-351 | toggling never introduces a duplicate |
| PartnerPanel.UncheckRemovesEntry | frontend/src/pages/private/partner/list/panel/PartnerPanel.tsx:352-354 | unchecking takes out exactly that entry; the others keep their order |
| PartnerPanel.CheckThenUncheck | frontend/src/pages/private/partner/list/panel/PartnerPanel.tsx:344-357 | checking an absent sector and unchecking it restores the list |
| PartnerPanel.NonArrayStartsEmpty | frontend/src/pages/private/partner/list/panel/PartnerPanel.tsx:345-347 | a value that is not an array is treated as no sector |
| PartnerPanel.OtherInputsShownExactly | frontend/src/pages/private/partner/list/panel/PartnerPanel.tsx:257-373 | each free-text input appears exactly when its field holds the "other" member |
| PartnerPanel.CheckingOthersShowsInput | frontend/src/pages/private/partner/list/panel/PartnerPanel.tsx:344-373 | checking OTHERS shows the other-sector input; unchecking hides it |
| EventPanel.AcceptsExactly | frontend/src/pages/private/event/list/panel/EventPanel.tsx:36-53 | an event is accepted exactly with a title, optional texts and numbers, nullable dates and string id lists |
| EventPanel.AcceptedListsAreStrings | frontend/src/pages/private/event/list/panel/EventPanel.tsx:41-52 | an accepted form yields string lists for documents, contacts and partners, [] when missing |
| EventPanel.InitFormValuesIssues | frontend/src/pages/private/event/list/panel/EventPanel.tsx:55-71 | only the title rule refuses the initial values |
| DataTable.Sanitize | frontend/src/components/data-table/DataTable.tsx:88-96 | the sanitised selection keeps exactly the selected keys of displayed rows, all selected |
| DataTable.ChangedExactly | frontend/src/components/data-table/DataTable.tsx:98-103 | the selection is written back exactly when some selected key names no displayed row |
| DataTable.SanitizeIdempotent | frontend/src/components/data-table/DataTable.tsx:88-103 | sanitising twice changes nothing more, and a sanitised selection is never written back |
| DataTable.SyncedSelectionIsDisplayed | frontend/src/components/data-table/DataTable.tsx:88-96 | after the effect every selected key names a displayed row and is selected |
| DataTable.RefinedColumns | frontend/src/components/data-table/DataTable.tsx:107-143 | a selection column is put first exactly when the parent owns the selection; the other columns follow unchanged |
| DataTable.Table.CurrentPagination | frontend/src/components/data-table/DataTable.tsx:68-83 | under manual pagination the parent's state is used, else the table's own |
| DataTable.Table.CurrentSelection | frontend/src/components/data-table/DataTable.tsx:80-86 | the parent's selection is used when supplied, else the table's own |
| DataTable.Table.SetRowSelection | frontend/src/components/data-table/DataTable.tsx:80-86 | a selection goes to the parent's callback when there is one, else into the table's state |
| DataTable.Table.SyncSelection | frontend/src/components/data-table/DataTable.tsx:88-105 | after a data change, the sanitised selection is written only when a selected key was dropped |
| DataTable.Table.OnRowSelectionChange | frontend/src/components/data-table/DataTable.tsx:161-173 | every update is sanitised to displayed rows and written |
| DataTable.Table.OnPaginationChange | frontend/src/components/data-table/DataTable.tsx:155-159 | a plain value is ignored; an updater is applied and its result goes to the parent or the table's own state |
| UsePagination.WithPage | frontend/src/hooks/use-pagination.ts:24-31 | the new params equal the old ones except for pageIndex and pageSize, which are copied verbatim |
| UsePagination.OnPaginationChange | frontend/src/hooks/use-pagination.ts:20-35 | `fetchData` is called exactly once, with the new params |
| UsePagination.OnlyPageDiffers | frontend/src/hooks/use-pagination.ts:24-31 | a page change leaves the params as they were exactly when it asks for the current page index and size |
| UsePagination.WithPageUndo | frontend/src/hooks/use-pagination.ts:24-31 | going back to the old page restores the params |
| UsePagination.WithPageLastWins | frontend/src/hooks/use-pagination.ts:24-31 | two page changes in a row have the effect of the last |
| UseBoolean.BooleanState.constructor | frontend/src/hooks/use-boolean.tsx:4 | the initial value defaults to false |
| UseBoolean.BooleanState.SetTrue | frontend/src/hooks/use-boolean.tsx:8 | `setTrue` yields true |
| UseBoolean.BooleanState.SetFalse | frontend/src/hooks/use-boolean.tsx:9 | `setFalse` yields false |
| UseBoolean.BooleanState.Toggle | frontend/src/hooks/use-boolean.tsx:10 | `toggle` negates the value |
| UseBoolean.ToggleTwice | frontend/src/hooks/use-boolean.tsx:10 | two toggles restore the value |
| UseBoolean.SetThenToggle | frontend/src/hooks/use-boolean.tsx:8-10 | a set followed by a toggle gives the opposite of the set value |
| GlobalModal.Overlay | frontend/src/store/global-modal.ts:49 | each supplied text replaces the current one, the others are kept |
| GlobalModal.OverlayNothing | frontend/src/store/global-modal.ts:49 | supplying no text keeps the meta |
| GlobalModal.OverlayIdempotent | frontend/src/store/global-modal.ts:49 | the same patch twice is the patch once |
| GlobalModal.OverlayThen | frontend/src/store/global-modal.ts:49 | successive overlays compose |
| GlobalModal.FullPatchReplaces | frontend/src/store/global-modal.ts:49 | a patch that supplies every text gives exactly those texts |
| GlobalModal.ModalStore.constructor | frontend/src/store/global-modal.ts:27-37 | the store starts closed, "confirm", with the default texts and no confirm handler |
| GlobalModal.ModalStore.SetOpen | frontend/src/store/global-modal.ts:39 | `setOpen` sets both the open flag and the type |
| GlobalModal.ModalStore.SetMeta | frontend/src/store/global-modal.ts:40-53 | `setMeta` overlays the texts, always replaces the confirm handler, and replaces the cancel handler only when one is supplied |
| GlobalModal.ModalStore.Cancel | frontend/src/store/global-modal.ts:38 | the default cancel closes the modal and keeps its type |
| GlobalModal.ModalStore.OpenConfirmModal | frontend/src/store/global-modal.ts:60-71 | opens as "confirm", then applies `setMeta` |
| GlobalModal.ModalStore.OpenLeave | frontend/src/store/global-modal.ts:73-83 | opens as "leave", then applies `setMeta` without a confirm handler |
| GlobalModal.ConfirmThenDefaultCancel | frontend/src/store/global-modal.ts:38-71 | opening a confirmation and cancelling it by default closes it and keeps the texts |
| ErrorHandler.CatchError | frontend/src/hooks/use-error-handler.tsx:5-16 | exactly one toast with the fixed title and duration; a string server message is shown, an object (including null) gives the generic text, a missing one falls back to `error.message`, a number or boolean is shown as it is |
| ErrorHandler.NullMessageIsGeneric | frontend/src/hooks/use-error-handler.tsx:7 | a null server message gives the generic text |
| ErrorHandler.EmptyMessageIsKept | frontend/src/hooks/use-error-handler.tsx:6-9 | an empty string server message is shown as it is |
| AvatarMenu.SplitSpaces | frontend/src/components/avatar-menu/AvatarMenu.tsx:35 | splitting on " " gives at least one piece |
| AvatarMenu.JoinSplit | frontend/src/components/avatar-menu/AvatarMenu.tsx:35 | joining the pieces with " " gives the name back |
| AvatarMenu.PiecesHaveNoSpace | frontend/src/components/avatar-menu/AvatarMenu.tsx:35 | no piece contains a space |
| AvatarMenu.Initials | frontend/src/components/avatar-menu/AvatarMenu.tsx:34-38 | no name gives no initials; otherwise at most two characters |
| AvatarMenu.TwoWords | frontend/src/components/avatar-menu/AvatarMenu.tsx:34-38 | "a b" gives the first letters of a and b |
| AvatarMenu.OneWord | frontend/src/components/avatar-menu/AvatarMenu.tsx:34-38 | a single word gives its first letter |
| AvatarMenu.OnlyLastTwoWordsCount | frontend/src/components/avatar-menu/AvatarMenu.tsx:35-36 | words before the last two do not matter |
| Routes.RoutesByRole | frontend/src/router/useRouter.tsx:11-14 | every kept route is a given route whose role list admits the role |
| Routes.RoutesByRoleMembers | frontend/src/router/useRouter.tsx:11-14 | a route is kept exactly when it is given and its role list is absent, empty or contains the role |
| Routes.RoutesByRoleKeepsOrder | frontend/src/router/useRouter.tsx:12-14 | the kept routes are a subsequence of the given ones |
| Routes.UnrestrictedRoutesAllKept | frontend/src/router/useRouter.tsx:11-14 | routes without a role restriction are all kept |
| Routes.AdminOnlyRoute | frontend/src/router/useRouter.tsx:11-14 | an admin-only route is kept exactly for an administrator |
| Routes.RouterTree | frontend/src/router/useRouter.tsx:16-30 | the tree is "/", "/login" and the protected children filtered by role |
| Routes.PublicRoutesIgnoreRole | frontend/src/router/useRouter.tsx:16-30 | "/" and "/login" do not depend on the role |
| MenuItems.CollapsibleChildrenKeys | frontend/src/components/main-sidebar/menu-item/CollapsibleMenuItem.tsx:23-32 | the keys are each item's link (or "") followed by its descendants' keys, in pre-order |
| MenuItems.KeyCount | frontend/src/components/main-sidebar/menu-item/CollapsibleMenuItem.tsx:23-32 | there is one key per item of the forest |
| MenuItems.KeysAppend | frontend/src/components/main-sidebar/menu-item/CollapsibleMenuItem.tsx:23-32 | the keys of two forests laid end to end are their keys laid end to end |
| MenuItems.LinkIsKey | frontend/src/components/main-sidebar/menu-item/CollapsibleMenuItem.tsx:23-32 | every item's own link is among the keys |
| MenuItems.VisibleChildren | frontend/src/components/main-sidebar/menu-item/CollapsibleMenuItem.tsx:75 | every shown child is a given child whose role list admits the role |
| MenuItems.VisibleChildrenExactly | frontend/src/components/main-sidebar/menu-item/CollapsibleMenuItem.tsx:75 | a child is shown exactly when its role list admits the role, in order |
| MenuItems.CollapsibleMenu.SyncOpen | frontend/src/components/main-sidebar/menu-item/CollapsibleMenuItem.tsx:46-54 | the effect only ever opens the entry, and opens it exactly when some key is active |
| MenuItems.CollapsibleMenu.Toggle | frontend/src/components/main-sidebar/menu-item/CollapsibleMenuItem.tsx:65 | the trigger flips the entry |
| MenuItems.CollapsibleMenu.SetOpen | frontend/src/components/main-sidebar/menu-item/CollapsibleMenuItem.tsx:57 | `onOpenChange` sets the entry |
| MenuItems.ActiveChildOpens | frontend/src/components/main-sidebar/menu-item/CollapsibleMenuItem.tsx:46-54 | an entry with an active child is opened by the effect |
| PartnerLabels.TypeLabel | frontend/src/pages/private/partner/list/partner.utils.tsx:37-44 | a known type gets its label, anything else is shown as it is |
| PartnerLabels.SectorLabel | frontend/src/pages/private/partner/list/partner.utils.tsx:46-55 | a known sector gets its label, anything else is shown as it is |
| PartnerLabels.RankLabel | frontend/src/pages/private/partner/list/partner.utils.tsx:57-66 | a known rank gets its label, anything else is shown as it is |
| PartnerLabels.OthersLabelledOther | frontend/src/pages/private/partner/list/partner.utils.tsx:42-64 | OTHER type, OTHERS sector and OTHER rank are all "Khác" |
| PartnerLabels.KnownLabelsDifferFromNames | frontend/src/pages/private/partner/list/partner.utils.tsx:37-66 | a known value's label differs from its raw name, so a label tells known from unknown |
| PartnerLabels.RankIconOf | frontend/src/pages/private/partner/list/partner.utils.tsx:68-112 | no icon exactly for a value outside the five ranks; the help icon exactly for OTHER |
| PartnerLabels.RankIconsDistinct | frontend/src/pages/private/partner/list/partner.utils.tsx:68-112 | different ranks get different icons |
| PartnerLabels.Choices | frontend/src/pages/private/partner/list/partner.utils.tsx:114-127 | an option list has one entry per value, in order, labelled by the mapper |
| PartnerLabels.TypeOptionsCoverEnum | frontend/src/pages/private/partner/list/partner.utils.tsx:114-117 | the type options are the types in declaration order with their labels |
| PartnerLabels.SectorOptionsCoverEnum | frontend/src/pages/private/partner/list/partner.utils.tsx:118-122 | the sector options are the sectors in declaration order with their labels |
| PartnerLabels.RankOptionsCoverEnum | frontend/src/pages/private/partner/list/partner.utils.tsx:123-127 | the rank options are the ranks in declaration order with their labels |
| EventLabels.StatusBadge | frontend/src/pages/private/event/list/event.utils.tsx:8-30 | each known status has its fixed badge; an unknown one is an outline badge showing the status |
| EventLabels.StatusTextsDistinct | frontend/src/pages/private/event/list/event.utils.tsx:9-27 | the five statuses get distinct texts |
| EventLabels.StatusOptions | frontend/src/pages/private/event/list/event.utils.tsx:32-35 | one option per status, in declaration order, each labelled "" |
| EventLabels.StatusOptionsCoverEnum | frontend/src/pages/private/event/list/event.utils.tsx:32-35 | every status appears among the options |
| PartnerView.Sectors | frontend/src/pages/private/partner/list/panel/PartnerViewPanel.tsx:28-32 | the sector display has the list's length and order: OTHERS shows the free text, every other value its label |
| PartnerView.TypeShown | frontend/src/pages/private/partner/list/panel/PartnerViewPanel.tsx:34-39 | OTHER shows the free text, another type its label, no type "" |
| PartnerView.RankShown | frontend/src/pages/private/partner/list/panel/PartnerViewPanel.tsx:41-48 | OTHER shows the free text, another rank its label, no rank "" |
| PartnerView.Render | frontend/src/pages/private/partner/list/panel/PartnerViewPanel.tsx:26-106 | no partner renders nothing; each row appears exactly when its value is non-empty |
| PartnerView.OtherTypeShowsFreeText | frontend/src/pages/private/partner/list/panel/PartnerViewPanel.tsx:34-39 | an OTHER type with free text shows that text |
| PartnerView.KnownTypeShowsLabel | frontend/src/pages/private/partner/list/panel/PartnerViewPanel.tsx:34-39 | a known non-OTHER type shows its label |
| PartnerView.SectorsInPlace | frontend/src/pages/private/partner/list/panel/PartnerViewPanel.tsx:28-32 | each sector's display sits at the sector's own position |
| ListPages.Merged | frontend/src/pages/private/partner/list/PartnerListPage.tsx:157-170 | absent keys keep the previous value; the pagination is the request's with the response's total |
| ListPages.MergedFullParams | frontend/src/pages/private/partner/list/PartnerListPage.tsx:157-170 | with every key given, the result is the request with the response's total |
| ListPages.MergedIdempotent | frontend/src/pages/private/partner/list/PartnerListPage.tsx:157-170 | merging the same response twice is merging it once |
| ListPages.MergedIgnoresRequestedTotal | frontend/src/pages/private/partner/list/PartnerListPage.tsx:164-167 | the total the request carried is ignored |
| ListPages.CountLine | frontend/src/pages/private/event/list/EventListPage.tsx:207-209 | on the user and event pages the count line is shown exactly when the total is positive, and then shows that total; the partner page shows it always |
| ListPages.CountShownAfterReceive | frontend/src/pages/private/user/list/UserListPage.tsx:287-289 | after a successful list call, the count line shows the response's total exactly when it is positive |
| ListPages.ListPage.ReceiveList | frontend/src/pages/private/partner/list/PartnerListPage.tsx:157-170 | a successful list stores its rows and merges the params; a failed one changes nothing |
| ListPages.ListPage.OpenCreate | frontend/src/pages/private/user/list/UserListPage.tsx:270-285 | the create button opens the panel for a new record |
| ListPages.ListPage.OpenEdit | frontend/src/pages/private/event/list/EventListPage.tsx:146-159 | the edit click opens the panel to edit |
| ListPages.ListPage.SubmitUnchecked | frontend/src/pages/private/partner/list/PartnerListPage.tsx:172-188 | the user and partner pages toast, refetch and close once the request returns, without checking `success` |
| ListPages.ListPage.SubmitChecked | frontend/src/pages/private/event/list/EventListPage.tsx:161-177 | the event page toasts, closes and refetches only when the response reports success |
| PartnerListPage.ContactIds | frontend/src/pages/private/partner/list/PartnerListPage.tsx:190-198 | `contactIds` are the joined contacts' ids, in order, [] without join rows |
| PartnerListPage.Contacts | frontend/src/pages/private/partner/list/PartnerListPage.tsx:91-113 | the contacts are the join rows' contacts, in order |
| PartnerListPage.Cell | frontend/src/pages/private/partner/list/PartnerListPage.tsx:91-113 | the cell is empty exactly without contacts; otherwise the first contact's name, with a "+(n-1)" badge exactly when n > 1 |
| PartnerListPage.CellCountsEveryContact | frontend/src/pages/private/partner/list/PartnerListPage.tsx:91-113 | the named contact and the badge count every contact |
| PartnerListPage.ContactListModal | frontend/src/pages/private/partner/list/PartnerListPage.tsx:200-209 | the modal is titled with the partner's name and shows the empty notice exactly without contacts |
| PartnerListPage.ModalMatchesCell | frontend/src/pages/private/partner/list/PartnerListPage.tsx:91-209 | the modal is empty exactly when the cell is |
| EventListPage.DateOf | frontend/src/pages/private/event/list/EventListPage.tsx:149-150 | a date is parsed exactly when present and non-empty, else null |
| EventListPage.ContactIds | frontend/src/pages/private/event/list/EventListPage.tsx:151-153 | `contactIds` are the ids of the contacts nested in the event's join rows, in order, [] when absent |
| EventListPage.PartnerIds | frontend/src/pages/private/event/list/EventListPage.tsx:154-156 | `partnerIds` are the ids of the partners nested in the event's join rows, in order, [] when absent |
| EventListPage.EditValuesOf | frontend/src/pages/private/event/list/EventListPage.tsx:146-159 | the edit form gets both dates and both id lists from the row |
| EventListPage.BareEventResets | frontend/src/pages/private/event/list/EventListPage.tsx:146-159 | an event without dates or associations opens with nulls and empty lists |
| EventListPage.IdsFollowJoinRows | frontend/src/pages/private/event/list/EventListPage.tsx:151-156 | each id list follows its join rows one for one |
| UserListPage.DepartmentLabel | frontend/src/pages/private/user/list/UserListPage.tsx:32-41 | a known department gets its label; anything else is shown as it is |
| UserListPage.DepartmentLabelsDistinct | frontend/src/pages/private/user/list/UserListPage.tsx:32-41 | different departments get different labels |
| UserListPage.RoleLabel | frontend/src/pages/private/user/list/UserListPage.tsx:43-45 | the administrator label exactly for ADMIN |
| UserListPage.CreateButtonMatchesAdminGate | frontend/src/pages/private/user/list/UserListPage.tsx:181-182 | the create button is shown exactly to the users `protectRoles([ADMIN])` admits: signed in and ADMIN |
| UserListPage.Controls | frontend/src/pages/private/user/list/UserListPage.tsx:61-163 | the switch, edit and delete controls are disabled exactly on the signed-in user's row |
| UserListPage.StatusLabel | frontend/src/pages/private/user/list/UserListPage.tsx:74-76 | the label beside the switch is exactly "Hoạt động" for an active account and exactly "Tạm ngưng" otherwise |
| UserListPage.EditValues | frontend/src/pages/private/user/list/UserListPage.tsx:224-230 | the row is copied into the form with `password` forced to "" |
| UserListPage.EditedRowAccepted | frontend/src/pages/private/user/list/UserListPage.tsx:224-230 | an opened row saves without a new password exactly when its name, username and e-mail meet the form's rules and its id is non-empty |
| UserListPage.StatusChangePatch | frontend/src/pages/private/user/list/UserListPage.tsx:232-244 | the confirmation names the action and the user; activating is a normal confirm, suspending a warning |
| UserListPage.StatusChangeReplacesAllTexts | frontend/src/pages/private/user/list/UserListPage.tsx:238-244 | every text is supplied, so none of the store's earlier texts shows through |
| UserListPage.StatusChangeDirectionsDiffer | frontend/src/pages/private/user/list/UserListPage.tsx:232-244 | activating and suspending ask with different titles and confirm styles |
| UserListPage.ConfirmStatusChange | frontend/src/pages/private/user/list/UserListPage.tsx:245-253 | the confirm sends (id, isActive); only success toasts, refetches and closes the modal |

## Left out

- Concurrency: `Promise.all` in the list services runs `count` and `findMany` concurrently; the model runs them one after the other, which cannot change their answers since neither writes.
- Prisma and the database are modelled only as far as the services use them, as the reference semantics in `Store`:
  - ordering puts NULL last when ascending and first when descending;
  - strings compare by code unit, not by the database's collation;
  - `mode: 'insensitive'` is ASCII lower-casing.
- Text: a Dafny string is a sequence of Unicode scalar values, a JavaScript string a sequence of UTF-16 code units. A character outside the Basic Multilingual Plane (an emoji, say) is one `char` here and two code units in JavaScript, so every length in the model counts it once where JavaScript counts it twice. `trim` recognises the ASCII white space and the common Unicode spaces listed in `Text`; lower-casing is ASCII only. The members whose contracts this changes follow.
- Forms.StringMin: `min(n)` counts characters, not code units, so "😀😀😀" fails `min(6)` here and passes it in zod.
- LoginSchema.PasswordIssues: the six-character minimum counts characters, as for `Forms.StringMin`.
- AccountPage.RefineIssues: the six-character minimum counts characters, as for `Forms.StringMin`.
- UserService.UpdateUser: the `length < 6` check counts characters, as for `Forms.StringMin`.
- AvatarMenu.Initials: `n[0]` of a word that starts outside the Basic Multilingual Plane is half a surrogate pair in JavaScript; here it is the whole character.
- Store.FindMany: a negative `take` is refused (`NegativeTake`), and so is a negative `skip`. Prisma instead reads a negative `take` as counting from the end of the ordered rows: a page size of -5 with page index 0 returns the last five rows. The list services send whatever page size the client supplies, so this case leads to a failure here where Prisma returns rows.
- ListQuery.PagesTile: `Sort` is stable over the table's sequence, so rows that tie on the sort column, and all rows when there is no `orderBy`, come back in storage order. A database promises no order for such rows and may return them differently on each request. Pages fetched by separate requests therefore tile only when the order is total; the lemma is about one fixed ordering.
- PartnerService.ListPartners: `sector` is searched with `contains` like the other text columns. The model assumes a text column, as the partner type of the client declares it (`string | null`), and a row whose `sector` holds a non-text value never matches. No database schema is part of this model, so if the column is in fact a list of enum values the query may be refused instead.
- ErrorHandler.CatchError: a server message that is a plain object is not modelled (`Forms.Input` has no such value); the objects covered are `null`, dates and arrays, which get the generic text as a plain object would.
- Numbers are integers; floating point (funding amounts, ratings) is not modelled.
- I/O: HTTP transport, cookies' browser behaviour, toasts' timing, React rendering, the loading overlay (`triggerLoading`) and the "no data" table message are left out. Toasts and requests are returned as values.
- `Tagging.TagsInput`: assumes the parent stores the last `onChange` it receives, which is how every caller uses it.
- AccountPage: the form's base fields other than the ones the payload reads are not modelled. The API's `UserResponse` is modelled as `Domain.PublicUser`.
- PartnerViewPanel: a `sector` value that is not an array is treated as an empty list.
- The role and department option lists of UserPanel are left out; they are label tables already modelled in `UserListPage`.
- Lookup tables indexed by a string: JavaScript's inherited property names (such as "constructor") are not modelled as hits.
- `GlobalModal.ModalStore.SetMeta`: a key supplied with the value `undefined` is not distinguished from an absent key; the same holds for `ListPages.Merged`.
- `MenuItems`: an absent `items` list is the empty list.
- Partner and event create/update: their service implementations are not part of this model, so the rewriting of join rows is not modelled; the pages take the join rows as given.
- The login page's own schema repeats `loginSchema` and is modelled once, as `LoginSchema`. The sidebar's top-level menu filter is the same role predicate as `MenuItems.VisibleChildren` and `Routes.RoutesByRole` (`Routes.RoleAllowed`).
- Wiring with no decision in it is left out: the persisted auth store's two setters, the pass-through controllers, the routers, the start-up code, the seed script, the initial-data and option-fetching hooks and the axios wrappers.
- Table sorting state and column resizing in DataTable are rendering concerns and are left out.
- `EventListPage.DateOf`: `new Date(text)` is a parameter; an invalid date is whatever that parameter returns.

## Findings

| source | as written | input that shows it | evidently intended | confidence | as-written member | corrected member |
|---|---|---|---|---|---|---|
| server/src/services/user.service.ts:51-94 | when the trimmed new password is blank, `updateData` still holds the raw `password` from the payload and writes it over the hash | AccountPage saves a profile without a password change: the payload has `password: ""` | the stored password changes only for a truthy new password | not executed | UserService.BlankPasswordOverwritesStored | UserService.IntendedPatchRotatesOnlyOnNewPassword |
| frontend/src/components/tags-input/TagsInput.tsx:50-55 | each pasted piece calls `addTag`, which proposes `[...tags, piece]` from the same stale `tags`, so the parent keeps only the last proposal | pasting "a,b" into an empty list gives ["b"] | every new piece is added | not executed | Tagging.PasteKeepsOnlyLastPiece | Tagging.IntendedPasteKeepsBoth |
| frontend/src/pages/private/user/list/panel/UserPanel.tsx:41-44 | the password minimum is 3 while its message says 6 and `loginSchema` requires 6 | create a user with username "abc" and password "abc": the form accepts it and the user can never sign in | a minimum of 6 | not executed | UserPanel.ShortPasswordPassesFormNotLogin | UserPanel.IntendedCreateCanSignIn |
