# Finance dashboard client — a Dafny model

The modelled system is the web client of a small accounting service. It is
written in React/Next.js and its screens are these:

- a login guard wrapped around every page;
- boards of income or expense operations, filtered by category;
- employees' finance periods and their advances;
- an administrator's accounts list;
- an audit history;
- a twelve-month statistics chart;
- an admin sidebar of employees.

Every piece of data lives on a remote API. What the client decides for
itself is a set of small rules and component state machines, and that is
what this project models:

- **Session and routing.**
  - `AuthWrapper`: the route guard's decision.
  - `AuthProvider`: the session context's check.
  - `UseAuth`: the alternate hook that asks `/users/me` and then at most
    one `/auth/refresh`.
  - `AuthFlag`: the oldest helper, a module-level flag.
- **Input rules and messages.**
  - `ChangePassword`: the password dialog.
  - `ErrorUtils`: the error-code table and the text the login and
    register pages show.
  - `DecimalInput`: the `^\d*\.?\d*$` amount input.
- **Table and list state.**
  - `Table`: the sort toggle, the pagination bar and the bounded page
    change that the four tables repeat.
  - `CategoryFilters`: the category filter list and the add-category
    input.
  - `CategoryItem`: the board's category entry, with its shared rename
    record and shared context menu.
  - `LegacyCategoryItem`: the older category entry with a menu of its own.
  - `Sidebar`: the sidebar's name filter, width and links.
- **Pages.**
  - `FinancesPage`: date formatting, advance-date validity, create
    validation, and the page's handlers.
  - `Board`: the operations table.
  - `AccountsPage` and `HistoryPage`: the two admin lists.
  - `AdminDashboard`: the statistics chart.

Two modules are supporting pieces. `Text` writes out the JavaScript string
built-ins the rules rely on: `trim`, `toLowerCase`, `includes`, `padStart`
and `String(n)`. `Http` is what a component sees of an HTTP exchange.

**Modelling conventions**

- **Responses are inputs.** The shared axios instance resolves every
  status as a reply (`validateStatus: () => true`), so a response is
  `Reply(status, body) | NetworkError`. A network error is the only
  outcome that makes a request throw.
- **Asynchronous checks.** A handler's awaited result is a parameter.
  Where the intermediate state is itself a property, the check is split in
  two methods: the provider's status is unknown while the check runs, and
  the hook's old status persists.
- **State.** Component state is a class whose methods are the event
  handlers. React's setters become field assignments. Requests that
  change server data are appended to a `sent` log. A refetch increments a
  counter.
- **Numbers.** Amounts and pixel measures are `real`.
- **Dates.** A date is a `(year, month, day)` triple, ordered
  lexicographically.
- **Environment values.** The current year, `window.innerHeight` and the
  bounding boxes are parameters. So is the number `Number(text)` gives,
  since it is floating point.

**Behaviours the model makes explicit**

- **Create on an income board.** After a successful create, the board's
  add row is reset to an *expense* draft whatever the board's type, so a
  second create from the same row sends an expense
  (`Board.SecondCreateOnIncomeBoard`).
- **Unchecked list replies.** The accounts and history pages take the list
  reply without checking its status. An error body replaces the rows and
  the page count with whatever fields it has (`None` in the model). The
  finances page and the dashboard do check for 200.
- **Existing names are not trimmed.** The add-category input trims the
  typed name but compares it with the existing names as they are. An
  existing " Food" does not block a new "Food"
  (`CategoryFilters.ExistingNamesAreNotTrimmed`).
- **Date formatting.** `formatBackendDate` pads month and day only to two
  characters and does not pad the year. A short array yields "undefined"
  parts.
- **Inherited error codes.** The error table is a plain object, so a
  backend code such as "constructor" or "__proto__" finds an inherited
  member. That member is truthy, so the error expression evaluates to it
  and skips the fallback text (`ErrorUtils.InheritedCodeSkipsFallback`).
- **Refresh and retry.** There is no 403 interceptor or refresh-and-retry
  in `app/api/instance.ts`. The only refresh is the single one in
  `hooks/useAuth.ts`, and it is the only one modelled.

## Model

| member | source | states |
|---|---|---|
| AuthWrapper.IsPublic | app/components/AuthWrapper.tsx:17 | Exactly "/login" and "/register" are public. Any other path, "/login/" and "/" included, is protected. |
| AuthWrapper.Redirect | app/components/AuthWrapper.tsx:17-23 | A redirect to "/login" is issued exactly when the status is known false and the path is neither "/login" nor "/register". So there is none while unknown or true, and none on a public page. |
| AuthWrapper.View | app/components/AuthWrapper.tsx:25-38 | Nothing is rendered exactly while the status is unknown. A public path gets only the page. Any other path gets navbar and page, with the sidebar iff the user is an admin. The render never tests for false. |
| AuthWrapper.Guard | app/components/AuthWrapper.tsx:17-38 | While a redirect is pending the chrome and page are still rendered. A public path never redirects and never shows chrome. A logged-in user is never redirected and always sees the page. |
| AuthWrapper.GuardAfterCheck | app/components/AuthWrapper.tsx:19-35 | After a provider check, the page renders. It redirects iff `/users/me` gave no 200 with a body and the path is protected. The sidebar shows iff the path is protected and the returned user's role is "ADMIN". |
| AuthWrapper.GuardWhileChecking | app/components/AuthWrapper.tsx:19-28 | While the status is unknown the guard renders nothing and never redirects, for every path. |
| AuthProvider.FetchUser | app/components/AuthProvider.tsx:26-34 | A user is returned iff the reply is a 200 with a body, and it is that body. Any other status, a missing body or a throw gives none (fails closed). |
| AuthProvider.IsAdmin | app/components/AuthProvider.tsx:49 | True iff a user is present and its role is exactly "ADMIN". |
| AuthProvider.Provider.constructor | app/components/AuthProvider.tsx:23-24 | The status starts unknown and no user is stored. |
| AuthProvider.Provider.StartCheck | app/components/AuthProvider.tsx:36-38 | The status becomes unknown before the response is considered. The user is kept and one `/users/me` is sent. |
| AuthProvider.Provider.FinishCheck | app/components/AuthProvider.tsx:38-46 | The stored user is `FetchUser` of the reply. The status is true iff a user is stored. No further request is sent. |
| AuthProvider.Provider.CheckAuth | app/components/AuthProvider.tsx:36-47 | A whole check sends exactly one `/users/me` and never a refresh. Afterwards the status is true iff a user is stored, and a failed check leaves no user behind. |
| UseAuth.Outcome | app/hooks/useAuth.ts:10-28 | The settled status is true after a 200 from `/users/me`, or after another status followed by a 200 refresh. A throw gives false, and so does any other refresh status, 204 included. |
| UseAuth.Requests | app/hooks/useAuth.ts:12-22 | A check sends `/users/me` first and a refresh exactly when that replied with a status other than 200, so one or two requests. `/users/me` is never repeated. |
| UseAuth.Hook.constructor | app/hooks/useAuth.ts:8 | The status starts unknown. |
| UseAuth.Hook.Start | app/hooks/useAuth.ts:10-12 | Starting a check sends `/users/me` and leaves the old status visible (no reset to unknown). |
| UseAuth.Hook.OnMe | app/hooks/useAuth.ts:12-27 | A 200 settles true and a throw settles false, both with no refresh. Any other status sends exactly one refresh and keeps the old status. |
| UseAuth.Hook.OnRefresh | app/hooks/useAuth.ts:18-27 | The status becomes true iff the refresh replied 200. Nothing more is sent. |
| UseAuth.Hook.CheckAuth | app/hooks/useAuth.ts:10-28 | A whole check settles on `Outcome(me, refresh)` after sending exactly `Requests(me)`. |
| AuthFlag.ModuleFlag.constructor | app/utils/auth.ts:6 | The module flag starts false. |
| AuthFlag.Hook.constructor | app/utils/auth.ts:9 | A new instance starts from the flag's current value. |
| AuthFlag.Hook.Login | app/utils/auth.ts:11-14 | The flag and the instance's state both become true, whatever they were (idempotent). |
| AuthFlag.Hook.Logout | app/utils/auth.ts:16-19 | The flag and the instance's state both become false, whatever they were (idempotent). |
| AuthFlag.LoginIsNotBroadcast | app/utils/auth.ts:6-19 | After one instance logs in, it and the flag agree on true. An instance created earlier still holds false, and one created later starts true. |
| ErrorUtils.Lookup | app/utils/errorUtils.ts:1-5 | The object lookup finds a message exactly for the three known codes, each with its own fixed text. It also finds the inherited member for a name `Object.prototype` carries ("constructor", "toString", "__proto__" and the rest), and nothing for any other code. |
| ErrorUtils.FailureMessage | app/login/page.tsx:24-35 | For a rejected request the error expression evaluates to what the lookup found, and to "Реєстрація не вдалася" exactly when it found nothing. A text it gives for a rejected request is a mapped message or the fallback, never a raw code, but an inherited-member code evaluates to that member, not the fallback. A thrown request gives the thrown message. |
| ErrorUtils.InheritedCodeSkipsFallback | app/login/page.tsx:25 | The code "constructor" evaluates to the inherited member, while an unknown code such as "SOMETHING_ELSE" gets the fallback. |
| ErrorUtils.MessagesDistinguishCodes | app/utils/errorUtils.ts:2-4 | The three messages differ from each other and from the fallback. |
| ChangePassword.Validate | app/components/ChangePasswordModal.tsx:20-28 | "Введіть обидва поля пароля" iff a field is empty, checked first. "Паролі не співпадають" iff neither is empty and they differ. No error iff both are non-empty and equal. |
| ChangePassword.NoTrimming | app/components/ChangePasswordModal.tsx:20-28 | A blank password is accepted, and a trailing blank makes a mismatch: no trimming. |
| ChangePassword.Modal.constructor | app/components/ChangePasswordModal.tsx:13-15 | Both fields and the error start empty. |
| ChangePassword.Modal.SetPassword | app/components/ChangePasswordModal.tsx:46 | Typing sets the password and nothing else. |
| ChangePassword.Modal.SetConfirmPassword | app/components/ChangePasswordModal.tsx:55 | Typing sets the confirmation and nothing else. |
| ChangePassword.Modal.HandleConfirm | app/components/ChangePasswordModal.tsx:19-33 | On an error, it is shown, both fields are kept and nothing is confirmed. Otherwise the pair is confirmed once, the error is cleared and both fields become "". |
| CategoryFilters.RemoveAll | app/components/board/filters/CategoryFilters.tsx:41 | Every occurrence of the id is dropped. Every other id's membership is kept. |
| CategoryFilters.RemoveAllAppend | app/components/board/filters/CategoryFilters.tsx:41 | Removal distributes over concatenation, so the remaining ids keep their order. |
| CategoryFilters.RemoveAllAbsent | app/components/board/filters/CategoryFilters.tsx:41 | Removing an absent id leaves the list identical. |
| CategoryFilters.RemoveAllDistinct | app/components/board/filters/CategoryFilters.tsx:41 | Removal keeps a duplicate-free list duplicate-free. |
| CategoryFilters.Toggle | app/components/board/filters/CategoryFilters.tsx:39-44 | The id's membership flips and every other id's membership stays. A present id is removed everywhere; an absent one is appended at the end. |
| CategoryFilters.ToggleKeepsDistinct | app/components/board/filters/CategoryFilters.tsx:39-44 | A duplicate-free filter list stays duplicate-free under every toggle. |
| CategoryFilters.ToggleTwice | app/components/board/filters/CategoryFilters.tsx:39-44 | For an id not in the list, toggling twice restores the list exactly. |
| CategoryFilters.AddCategoryKey | app/components/board/filters/CategoryFilters.tsx:69-83 | Enter submits iff the typed text is not blank and no existing name equals its trim up to case, and it submits that trim. Escape closes iff the key is Escape. Anything else does nothing. |
| CategoryFilters.ExistingNamesAreNotTrimmed | app/components/board/filters/CategoryFilters.tsx:70-74 | Only the typed text is trimmed: an existing " X" does not block adding "X". |
| CategoryFilters.AddCategory.constructor | app/components/board/filters/CategoryFilters.tsx:32-35 | Adding mode starts closed with an empty name. |
| CategoryFilters.AddCategory.Open | app/components/board/filters/CategoryFilters.tsx:59 | The "+" icon opens adding mode and keeps the typed name. |
| CategoryFilters.AddCategory.Input | app/components/board/filters/CategoryFilters.tsx:68 | Typing replaces the name. |
| CategoryFilters.AddCategory.KeyDown | app/components/board/filters/CategoryFilters.tsx:69-83 | The effect is `AddCategoryKey` of the typed name. Adding mode stays open unless Escape closed it and cleared the name. An Enter that does nothing keeps the state. |
| CategoryItem.ShowsRenameInput | app/components/board/filters/CategoryItem.tsx:49 | An entry shows its rename input exactly when the shared renaming record names its id, and none does with no record. With `AtMostOneEntry`, at most one entry shows it. |
| CategoryItem.ShowsMenu | app/components/board/filters/CategoryItem.tsx:104 | An entry shows the context menu exactly when the open menu names its id, and none does with no menu. |
| CategoryItem.AtMostOneEntry | app/components/board/filters/CategoryItem.tsx:104 | The shared records put at most one entry into rename mode and show at most one context menu. |
| CategoryItem.RenameKey | app/components/board/filters/CategoryItem.tsx:59-63 | Enter renames iff the text is not blank, to its trim, for this id. Escape cancels iff the key is Escape. Anything else does nothing. |
| CategoryItem.PlaceMenu | app/components/board/filters/CategoryItem.tsx:39-44 | The menu goes above exactly when an 80 px menu hung from the entry's bottom edge would reach past the window's bottom. |
| CategoryItem.MenuTop | app/components/board/filters/CategoryItem.tsx:109-112 | Below, the menu's top is the entry's bottom edge. Above, the menu's bottom edge (top plus 80) is the entry's top edge. |
| CategoryItem.MenuLeft | app/components/board/filters/CategoryItem.tsx:113 | The 144 px menu is right-aligned with the entry. |
| CategoryItem.OpenedMenuGeometry | app/components/board/filters/CategoryItem.tsx:36-47 | The menu goes above iff less than 80 px is left below the entry. Below, its top is the entry's bottom and it fits in the window. Above, its bottom is the entry's top. Its right edge is the entry's. |
| CategoryItem.SharedState.constructor | app/components/board/filters/CategoryItem.tsx:21-27 | No entry is renamed and no menu is open. |
| CategoryItem.SharedState.Input | app/components/board/filters/CategoryItem.tsx:54-57 | Typing changes only the renaming record's name and keeps its id. |
| CategoryItem.SharedState.KeyDown | app/components/board/filters/CategoryItem.tsx:59-63 | The effect is `RenameKey` of the typed text. Only Escape clears the record. |
| CategoryItem.SharedState.DoubleClick | app/components/board/filters/CategoryItem.tsx:75 | A double click starts renaming the entry from its current name. |
| CategoryItem.SharedState.EditFromMenu | app/components/board/filters/CategoryItem.tsx:120-122 | The menu's edit item does the same as a double click. |
| CategoryItem.SharedState.OpenContextMenu | app/components/board/filters/CategoryItem.tsx:36-47 | A right click opens the shared menu for this entry with the computed placement and box. The menu then shows on this entry only. |
| CategoryItem.SharedState.DocumentClick | app/components/board/filters/CategoryItem.tsx:30-34 | Any document click closes the menu. |
| LegacyCategoryItem.SpaceBelow | app/components/filters/CategoryItem.tsx:37-41 | In the container's content coordinates, the entry's bottom plus the space below is the bottom of the scrolled view. |
| LegacyCategoryItem.LegacyPlacement | app/components/filters/CategoryItem.tsx:36-45 | The menu goes above exactly when an 80 px menu hung from the entry's bottom would reach past the container's visible bottom. |
| LegacyCategoryItem.LegacyIsWindowRule | app/components/filters/CategoryItem.tsx:41-44 | The older rule is the board entry's `PlaceMenu` with the container's visible height as the window and the entry's bottom seen from the container's visible top as the box's bottom. |
| LegacyCategoryItem.PlacementMonotone | app/components/filters/CategoryItem.tsx:36-45 | Scrolling further down never moves a menu from below to above, and a lower entry of the same height gets its menu above whenever a higher one does. |
| LegacyCategoryItem.RenamingSlot.constructor | app/components/filters/CategoryItem.tsx:18 | Nothing is being renamed. |
| LegacyCategoryItem.LegacyItem.constructor | app/components/filters/CategoryItem.tsx:24 | The entry's own menu starts closed. |
| LegacyCategoryItem.LegacyItem.OpenContextMenu | app/components/filters/CategoryItem.tsx:32-46 | Without a container nothing changes. Otherwise the menu opens with the computed placement. |
| LegacyCategoryItem.LegacyItem.DocumentClick | app/components/filters/CategoryItem.tsx:26-30 | Any document click closes this entry's menu. |
| LegacyCategoryItem.LegacyItem.Input | app/components/filters/CategoryItem.tsx:53-56 | Typing changes only the record's name and keeps its id. |
| LegacyCategoryItem.LegacyItem.KeyDown | app/components/filters/CategoryItem.tsx:58-62 | The board entry's rule: Enter renames to the non-blank trim and Escape clears the record. |
| LegacyCategoryItem.LegacyItem.StartRename | app/components/filters/CategoryItem.tsx:74 | A double click, or the menu's edit item, starts renaming from the current name. |
| DecimalInput.MatchesDecimal | app/components/board/Board.tsx:158 | The matcher accepts exactly the regex's shape: digits, then optionally '.' and digits. Equivalently, it accepts exactly the texts of digits and dots with at most one dot. |
| DecimalInput.AmountKeystroke | app/components/board/Board.tsx:156-160 | A keystroke is refused iff the text is outside the regex. "" gives 0. Any other accepted text is parsed and has at most one dot. |
| DecimalInput.RejectedTexts | app/components/board/Board.tsx:158 | A sign, an exponent and a second dot are refused. "12.50" is kept as typed. |
| Table.NextSort | app/components/finances/FinancesPage.tsx:191-199 | The clicked column becomes the sort column. The direction flips when it already was the sort column and is ascending otherwise. |
| Table.SortClickTwice | app/components/finances/FinancesPage.tsx:191-199 | Two clicks on the current column restore the sort. On a new column they leave it descending. |
| Table.Pagination | app/components/finances/FinancesPage.tsx:610-628 | The label is 0 for an empty list, else page+1. "Минула" shows iff page > 0. "Наступна" shows iff page+1 < totalPages. A shown button leads within bounds. |
| Table.SinglePageHasNoButtons | app/components/finances/FinancesPage.tsx:610-628 | On the first page of at most one page neither button is shown. |
| Table.PageChange | app/components/finances/FinancesPage.tsx:201-203 | The new page is taken iff it is within 0..totalPages-1, so the page stays in bounds. |
| FinancesPage.FormatBackendDate | app/components/finances/FinancesPage.tsx:214-218 | The text is empty exactly for a non-array. An array's text starts with its year written as is, followed by '-'. |
| FinancesPage.FormatBackendDateRoundTrip | app/components/finances/FinancesPage.tsx:214-218 | The formatted text of a complete array reads back as the same three numbers, and it starts with the year unpadded. |
| FinancesPage.FormatBackendDateExample | app/components/finances/FinancesPage.tsx:217 | Month and day are zero-padded to two, a two-digit part is kept, and the year is not padded. |
| FinancesPage.FormatBackendDateMissingParts | app/components/finances/FinancesPage.tsx:215-217 | A non-array gives "". Missing elements read "undefined" and are not padded. |
| FinancesPage.IsAdvanceDateValid | app/components/finances/FinancesPage.tsx:60-74 | No day is never valid. A day is valid iff some period contains it, both ends included. |
| FinancesPage.PeriodEndsAreValid | app/components/finances/FinancesPage.tsx:72 | The first and last day of a well-ordered period are valid advance days. |
| FinancesPage.TotalPagesFrom | app/components/finances/FinancesPage.tsx:115 | The page count is `total_pages`, or 1 when missing or 0, and is never 0. |
| FinancesPage.ValidateDraft | app/components/finances/FinancesPage.tsx:123-129 | Each date is flagged iff empty and each amount iff negative (0 is allowed). No flag iff all values are acceptable. |
| FinancesPage.WithoutId | app/components/finances/FinancesPage.tsx:224 | Exactly the periods with another id are kept, and the result is no longer than the list. |
| FinancesPage.WithoutIdSingle | app/components/finances/FinancesPage.tsx:224 | A single row is kept exactly when its id differs. |
| FinancesPage.WithoutIdAppend | app/components/finances/FinancesPage.tsx:224 | Dropping rows distributes over concatenation. With `WithoutIdSingle` this fixes the result: the kept rows stay in their order, each with its number of copies. |
| FinancesPage.WithoutIdAbsent | app/components/finances/FinancesPage.tsx:224 | When no row has the id, the list is kept as it is, in the same order. |
| FinancesPage.Page.constructor | app/components/finances/FinancesPage.tsx:18-55 | The initial state: no rows, sorted by id descending on page 0 of 1, no errors, empty draft, closed dialog. |
| FinancesPage.Page.Toggle | app/components/finances/FinancesPage.tsx:187-189 | The open row is cleared when it was `i` and becomes `i` otherwise. Every other field is as before, and the page invariant (a page count other than 0, a page of at least 0) is kept. |
| FinancesPage.Page.HandleSort | app/components/finances/FinancesPage.tsx:191-199 | The sort moves by `NextSort` and the page resets to 0. Every other field is as before, and the page invariant (a page count other than 0, a page of at least 0) is kept. |
| FinancesPage.Page.OnPageChange | app/components/finances/FinancesPage.tsx:201-203 | The page moves by `PageChange`, so it stays within the count. Every other field is as before, and the page invariant (a page count other than 0, a page of at least 0) is kept. |
| FinancesPage.Page.Pager | app/components/finances/FinancesPage.tsx:610-628 | The visibility rules and the label of the current state. A shown "Наступна" click is always taken by `onPageChange`. |
| FinancesPage.Page.OnFinancesReply | app/components/finances/FinancesPage.tsx:108-120 | A 200 replaces the rows (missing ones give []) and the page count. Anything else changes nothing. Every other field is as before, and the page invariant (a page count other than 0, a page of at least 0) is kept. |
| FinancesPage.Page.HandleCreate | app/components/finances/FinancesPage.tsx:122-158 | The flags are recomputed. With a flag set nothing is sent and the row stays open. Otherwise the draft is sent; unless that throws, the row closes, the draft resets and the list is refetched. Every other field is as before, and the page invariant (a page count other than 0, a page of at least 0) is kept. |
| FinancesPage.Page.HandleEdit | app/components/finances/FinancesPage.tsx:160-169 | The row enters edit mode with its dates formatted and its amounts copied. Every other field is as before, and the page invariant (a page count other than 0, a page of at least 0) is kept. |
| FinancesPage.Page.HandleSave | app/components/finances/FinancesPage.tsx:171-185 | The edited values are sent. Unless that throws, edit mode ends and the list is refetched. Every other field is as before, and the page invariant (a page count other than 0, a page of at least 0) is kept. |
| FinancesPage.Page.HandleDelete | app/components/finances/FinancesPage.tsx:220-228 | The delete is sent. Unless that throws, the list is refetched and the row is dropped locally. Every other field is as before, and the page invariant (a page count other than 0, a page of at least 0) is kept. |
| FinancesPage.Page.OpenAdvanceDialog | app/components/finances/FinancesPage.tsx:57 | The advance dialog opens with its fields as they were. Every other field is as before, and the page invariant (a page count other than 0, a page of at least 0) is kept. |
| FinancesPage.Page.CloseAdvanceDialog | app/components/finances/FinancesPage.tsx:58 | The dialog closes, keeps its fields and sends nothing. Every other field is as before, and the page invariant (a page count other than 0, a page of at least 0) is kept. |
| FinancesPage.Page.AdvanceAmountInput | app/components/finances/FinancesPage.tsx:643-648 | A refused keystroke keeps the amount, "" sets 0 and any other accepted text sets its number. Every other field is as before, and the page invariant (a page count other than 0, a page of at least 0) is kept. |
| FinancesPage.Page.AdvanceDateChange | app/components/finances/FinancesPage.tsx:658-667 | The day is stored. The error "Обраний час не входить в період" shows iff a day was picked that no period contains. Every other field is as before, and the page invariant (a page count other than 0, a page of at least 0) is kept. |
| FinancesPage.Page.SubmitAdvance | app/components/finances/FinancesPage.tsx:77-94 | Without a day, or with the error shown, nothing happens. Otherwise the advance is sent and the dialog closes; unless the request throws, the fields reset and the list is refetched. Every other field is as before, and the page invariant (a page count other than 0, a page of at least 0) is kept. |
| FinancesPage.Page.SetAdding | app/components/finances/FinancesPage.tsx:263 | The "+" and cancel buttons open and close the add row and change nothing else. Every other field is as before, and the page invariant (a page count other than 0, a page of at least 0) is kept. |
| FinancesPage.Page.DraftAmountInput | app/components/finances/FinancesPage.tsx:307-347 | A refused keystroke keeps the draft. Otherwise only the chosen amount changes, to 0 for "" and to the number otherwise. Every other field is as before, and the page invariant (a page count other than 0, a page of at least 0) is kept. |
| FinancesPage.Page.DraftDateChange | app/components/finances/FinancesPage.tsx:277-296 | The picked day's text, or "" when cleared, is stored in the chosen date. A cleared date is then flagged by validation. Every other field is as before, and the page invariant (a page count other than 0, a page of at least 0) is kept. |
| FinancesPage.Page.CancelEdit | app/components/finances/FinancesPage.tsx:514 | The edit row's cancel leaves edit mode and sends nothing. Every other field is as before, and the page invariant (a page count other than 0, a page of at least 0) is kept. |
| FinancesPage.Page.DeleteAdvanceClick | app/components/finances/FinancesPage.tsx:483-490 | The advance delete is sent. Unless that throws, the list is refetched; the rows are not touched locally. Every other field is as before, and the page invariant (a page count other than 0, a page of at least 0) is kept. |
| Board.ValidateOperation | app/components/board/Board.tsx:63-70 | The amount is flagged iff negative (0 is allowed) and the category iff its id is 0. Create proceeds iff neither is flagged. |
| Board.CreatePayloadFor | app/components/board/Board.tsx:72-79 | The create body carries the board's id and the draft's values. The date is absent exactly when none was picked. |
| Board.EditFrom | app/components/board/Board.tsx:97-105 | Edit mode copies the amount and date, the category id or 0, and the comment or "". |
| Board.SavePayloadFor | app/components/board/Board.tsx:109-116 | Save always sends the board's id and the board's operation type, never edited ones, with the edited values. |
| Board.BoardView.constructor | app/components/board/Board.tsx:44-59 | The add row starts empty with the board's own operation type. |
| Board.BoardView.OpenAddRow | app/components/board/Board.tsx:142 | The "+" icon opens the add row and keeps the draft. Every other field is as before. |
| Board.BoardView.SelectCategory | app/components/board/Board.tsx:170 | Choosing a category changes only the draft's category. Every other field is as before. |
| Board.BoardView.AmountInput | app/components/board/Board.tsx:156-160 | A refused keystroke keeps the draft, "" sets 0 and any other accepted text sets its number. Every other field is as before. |
| Board.BoardView.HandleCreate | app/components/board/Board.tsx:62-86 | The flags are recomputed and with a flag set nothing is sent. Otherwise the create body is sent; unless that throws, the row closes and the draft resets to an empty expense. Every other field is as before. |
| Board.BoardView.HandleEdit | app/components/board/Board.tsx:97-105 | The row enters edit mode with `EditFrom` of it. Every other field is as before. |
| Board.BoardView.HandleSave | app/components/board/Board.tsx:107-122 | The save body is sent. Unless that throws, edit mode ends and the list is refetched. Every other field is as before. |
| Board.BoardView.HandleDelete | app/components/board/Board.tsx:88-95 | The delete is sent and the list is refetched unless it throws. Every other field is as before. |
| Board.SecondCreateOnIncomeBoard | app/components/board/Board.tsx:77-81 | On an income board the first create sends an income operation and the second, from the reset row, an expense. |
| Board.BoardView.Pager | app/components/board/Board.tsx:322-338 | For the page, count and operations passed in: the label is 0 with no operations, else page+1. "Минула" shows iff page > 0 and "Наступна" iff page+1 < totalPages, so a shown button hands `onPageChange` a page that is not negative and, from a page of at least 0, is within the count. |
| AccountsPage.ShowsActions | app/accounts/page.tsx:183-195 | The delete and password icons appear exactly on rows whose role is "USER", so an "ADMIN" row (or a "user" one) offers neither. |
| AccountsPage.Param | app/accounts/page.tsx:32-33 | An empty filter is omitted from the query. Any other is sent as is. |
| AccountsPage.Page.constructor | app/accounts/page.tsx:15-26 | The first page of all users, by login ascending, 25 a page, no selection, dialogs closed. |
| AccountsPage.Page.Query | app/accounts/page.tsx:31-38 | The query omits exactly the empty filters and carries the sort, the page and the size 25. |
| AccountsPage.Page.SetUsername | app/accounts/page.tsx:49-51 | A changed login filter sends the list back to page 0. Every other field is as before. |
| AccountsPage.Page.SetRole | app/accounts/page.tsx:49-51 | A changed role filter sends the list back to page 0. Every other field is as before. |
| AccountsPage.Page.HandleSort | app/accounts/page.tsx:57-64 | The sort moves by `NextSort` and the page is kept. Every other field is as before. |
| AccountsPage.Page.OnUsersReply | app/accounts/page.tsx:40-46 | Any reply replaces the rows and the page count with its fields, without a status check. A throw changes nothing. Every other field is as before. |
| AccountsPage.Page.PreviousPage | app/accounts/page.tsx:205-211 | "Минула", shown only after the first page, moves back one page and stays at 0 or above. Every other field is as before. |
| AccountsPage.Page.NextPage | app/accounts/page.tsx:213-219 | "Наступна", shown only before the last page, moves forward one page and stays within the count. Every other field is as before. |
| AccountsPage.Page.DeleteClick | app/accounts/page.tsx:66-69 | Reached only from a row where `ShowsActions` holds: the row's user is selected and the delete dialog opens. Every other field is as before. |
| AccountsPage.Page.ConfirmDelete | app/accounts/page.tsx:71-85 | With no selection nothing happens. Otherwise the delete is sent and the list refetched only on 204; in every case the dialog closes and the selection clears. Every other field is as before. |
| AccountsPage.Page.PasswordClick | app/accounts/page.tsx:87-90 | Reached only from a row where `ShowsActions` holds: the row's user is selected and the password dialog opens. Every other field is as before. |
| AccountsPage.Page.PasswordChange | app/accounts/page.tsx:92-109 | With no selection nothing happens. Otherwise the pair is sent and the list refetched only on 204; in every case the dialog closes and the selection clears. Every other field is as before. |
| AccountsPage.Page.ConfirmPasswordDialog | app/accounts/page.tsx:228-233 | With a validation error the dialog shows it and keeps both fields, and the page is untouched. Otherwise the dialog's fields and error become "", and with a selected user exactly that pair is sent, the dialog closes, the selection clears and the list is refetched only on 204; without one nothing is sent. So a password request always has two equal, non-empty fields. |
| AccountsPage.Page.Pager | app/accounts/page.tsx:203-220 | The bar of the page's own state: the label is 0 with no users, else page+1. "Минула" shows iff page > 0, which is what `PreviousPage` requires. "Наступна" shows iff page+1 < totalPages, which is what `NextPage` requires. |
| HistoryPage.OperationLabel | app/history/page.tsx:67 | "Витрати" iff the operation type is "EXPENSE". Anything else, a missing type included, gives "Доходи". |
| HistoryPage.RenderBodyMessage | app/history/page.tsx:58-90 | One of five templates, chosen by `type` (each iff its type). User templates carry only the login; operation templates carry only the label, board and category. Another type gives the serialised body, and a null body is returned as it is. |
| HistoryPage.Segments | app/history/page.tsx:62-82 | A user template puts the login in bold between two fixed pieces. An operation template starts with "Операція " and puts the label, the board and the category in bold, the category after " в категорії ". |
| HistoryPage.TemplateEmphasis | app/history/page.tsx:62-83 | The bold parts of each template are exactly its data, in order. |
| HistoryPage.TemplatesReadOnlyTheirFields | app/history/page.tsx:62-83 | Two bodies of the same type that agree on the fields a template reads get the same message. |
| HistoryPage.Page.constructor | app/history/page.tsx:11-18 | The first page of all entries, newest first, 15 a page. |
| HistoryPage.Page.Query | app/history/page.tsx:23-30 | The query omits exactly the empty filters and carries the sort, the page and the size 15. |
| HistoryPage.Page.SetUsername | app/history/page.tsx:41-43 | A changed login filter sends the list back to page 0. Every other field is as before. |
| HistoryPage.Page.SetKind | app/history/page.tsx:41-43 | A changed type filter sends the list back to page 0. Every other field is as before. |
| HistoryPage.Page.HandleSort | app/history/page.tsx:49-56 | The sort moves by `NextSort` and the page is kept. Every other field is as before. |
| HistoryPage.Page.OnHistoriesReply | app/history/page.tsx:32-38 | Any reply replaces the rows and the page count, without a status check. A throw changes nothing. Every other field is as before. |
| HistoryPage.Page.PreviousPage | app/history/page.tsx:172-178 | "Минула" moves back one page and stays at 0 or above. Every other field is as before. |
| HistoryPage.Page.NextPage | app/history/page.tsx:183-189 | "Наступна" moves forward one page and stays within the count. Every other field is as before. |
| HistoryPage.Page.Pager | app/history/page.tsx:170-191 | The bar of the page's own state: the label is 0 for an empty list, else page+1. "Минула" shows iff page > 0, which is what `PreviousPage` requires. "Наступна" shows iff page+1 < totalPages, which is what `NextPage` requires. |
| AdminDashboard.FirstIndexOf | app/components/AdminDashboard.tsx:59 | The index found is the first record of the month, or the end when there is none. |
| AdminDashboard.MonthAmount | app/components/AdminDashboard.tsx:59-62 | A month with no record gives 0. Otherwise the amount is that of some record of the month before which no record has that month, i.e. the first. |
| AdminDashboard.MonthAmountAppend | app/components/AdminDashboard.tsx:59-62 | Only the first record of a month counts: a later part gives the amount only when the earlier has none. |
| AdminDashboard.ChartData | app/components/AdminDashboard.tsx:58-64 | Exactly 12 entries in month order. Entry i is labelled with the first three letters of month i's name and carries the first record for month i+1, or 0. |
| AdminDashboard.OutOfRangeMonthsIgnored | app/components/AdminDashboard.tsx:58-59 | A record for a month outside 1..12, wherever it stands, does not change the chart. |
| AdminDashboard.LaterDuplicatesIgnored | app/components/AdminDashboard.tsx:59 | A later record for a month already present does not change the chart. |
| AdminDashboard.ChartLabels | app/components/AdminDashboard.tsx:42-61 | The labels are "Січ", "Лют", …, "Гру". |
| AdminDashboard.Dashboard.constructor | app/components/AdminDashboard.tsx:25-27 | The current year, expenses, no records. |
| AdminDashboard.Dashboard.OnStatsReply | app/components/AdminDashboard.tsx:29-40 | A 200 replaces the records and another status keeps them. A failed request empties them, so all 12 amounts are 0. |
| AdminDashboard.Dashboard.PreviousYear | app/components/AdminDashboard.tsx:159 | The year decreases by exactly one. |
| AdminDashboard.Dashboard.NextYear | app/components/AdminDashboard.tsx:166 | The year increases by exactly one. |
| AdminDashboard.Dashboard.SetType | app/components/AdminDashboard.tsx:72-86 | The tabs set the statistics type without touching the year or the records. |
| Sidebar.Matches | app/components/Sidebar.tsx:22 | A name matches iff the lowercased search occurs somewhere in the lowercased name, so the empty search matches every name. |
| Sidebar.FilterNames | app/components/Sidebar.tsx:21-23 | Exactly the names whose lowercased form contains the lowercased search, in their original order, as a subsequence of the list. |
| Sidebar.FilterNamesAppend | app/components/Sidebar.tsx:21-23 | Filtering distributes over concatenation: each name is judged on its own. |
| Sidebar.EmptySearchKeepsAll | app/components/Sidebar.tsx:21-23 | An empty search keeps every name. |
| Sidebar.EmptySearchShowsEveryone | app/components/Sidebar.tsx:6-23 | With no search all eight sample names are shown. |
| Sidebar.ToggleCollapsed | app/components/Sidebar.tsx:79 | The arrow flips `collapsed` and keeps the search. |
| Sidebar.ToggleCollapsedTwice | app/components/Sidebar.tsx:79 | Two clicks restore the state. |
| Sidebar.Width | app/components/Sidebar.tsx:25 | 80 px iff collapsed, 288 px iff not. |
| Sidebar.ToggleSwitchesWidth | app/components/Sidebar.tsx:25 | A click always switches between the two widths. |
| Sidebar.Links | app/components/Sidebar.tsx:105-108 | One link per shown name. The k-th reads "/employee/" followed by the digits of k+1, its position in the filtered list. |
| Sidebar.LinksDistinct | app/components/Sidebar.tsx:105-108 | No two shown names share a link. |
| Sidebar.ShownLinks | app/components/Sidebar.tsx:103-115 | Nothing is listed when collapsed. Otherwise the links of the filtered names are listed. |
| Sidebar.InitialShowsEveryone | app/components/Sidebar.tsx:18-25 | When first shown the sidebar is 288 px wide and links all eight names, Alice first. |
| Sidebar.OnlyMatch | app/components/Sidebar.tsx:105-108 | When exactly one name matches, it alone is shown, linked as "/employee/1", wherever it stands in the full list. |
| Text.Trim | app/components/board/filters/CategoryFilters.tsx:70 | `trim` removes an all-blank prefix and an all-blank suffix, leaving an infix of the text with no blank at either end. It is empty iff the text is all blank. |
| Text.TrimUntouched | app/components/board/filters/CategoryItem.tsx:60 | Text with no blank at either end is its own trim. |
| Text.LowerIdempotent | app/components/Sidebar.tsx:22 | Lowercasing twice is lowercasing once. |
| Text.Includes | app/components/Sidebar.tsx:22 | `includes` holds iff the search occurs at some position. |
| Text.ParseNatToString | app/components/Sidebar.tsx:108 | The decimal text of a number reads back as that number. |
| Text.PadStart | app/components/finances/FinancesPage.tsx:217 | `padStart` keeps the text as a suffix and fills up to the width with the filler. |

## Left out

- **Networking.** Every request is represented by its response, passed
  as a parameter. Axios, fetch, JSON decoding and the server are not
  modelled. A refetch is a counter, not a new request and reply.
- **Effects and concurrency.** React's effects, re-renders and the
  interleaving of overlapping fetches are not modelled. Neither is the
  "auth-change" window event that re-runs the hook's check.
  - Each filter's page reset is modelled as part of its setter.
  - The effect that refetches on a change of sort, direction or page is
    not modelled.
- **JWT, localStorage and the router.** JWT decoding (`app/utils/authUtils.ts`),
  localStorage and router navigation are browser and foreign code. The
  guard's redirect is its returned target.
- **Numbers.** JavaScript numbers are floating point. `Number(text)` is
  a parameter of the amount inputs. In particular `Number(".")` is NaN
  although "." passes the regex.
- **Dates.** `Date`, `toISOString`, `toLocaleString` and the Kyiv time
  zone are not modelled.
  - Days are `(year, month, day)` triples compared in calendar order, and
    an array shorter than three gives no day.
  - A picked day reaches the add row as its already formatted text.
- **Strings.**
  - `toLowerCase` is modelled for ASCII, the basic Cyrillic capitals and
    Ґ. The rest of Unicode case mapping is not modelled.
  - The `===` comparisons are exact sequence equality.
  - Unicode normalisation is not modelled.
- **Bodies of unexpected shape.** A body that is truthy but not a user is
  not distinguished from a user.
  - `FetchUser` reads the body as `Option<User>`.
  - `JSON.stringify` is represented by the `Serialized` message.
- **Presentation.** JSX layout, CSS classes and icons are not modelled.
  Neither are the presentation-only components: Navbar, DeleteModal, the
  date, comment and board filters, UserDashboard, and the layout and home
  pages.
- **Plain field setters.** Setters on rows whose values no rule reads are
  not modelled:
  - the board's comment and date inputs, and its add/edit cancel
    buttons (`app/components/board/Board.tsx:189-214, 232-276`);
  - the finance edit row's inputs (`app/components/finances/FinancesPage.tsx:384-450`),
    which call `Number` without the regex;
  - the dialogs' close buttons on the accounts page.
- ErrorUtils.FailureMessage: the model gives the value handed to the error setter. What React then does with a function or object value is not modelled: it calls a function as an updater of the previous error (which, depending on the member, gives another value or throws), and cannot render an object such as `Object.prototype`.
- AccountsPage.Page.Pager: the bar is modelled once the reply carried a page count. After a reply without `total_pages` the page shows "з undefined" and no "Наступна". The model's bar then has no count to show. (Without `content` the row list's `map` already throws, so no bar is drawn.)
- HistoryPage.Page.Pager: the same gap as the accounts bar for a reply without `total_pages`.
- **Category handlers.** A category entry's click calls
  `toggleCategoryFilter`, which is `CategoryFilters.Toggle`. Deleting a
  category and submitting a new one are callbacks owned by the board's
  page, which is not part of this model.
