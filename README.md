# Category admin and account page rules, modelled in Dafny

This project models the stateable rules of an e-commerce storefront's web front end:

- the category create/edit form (`CategoryForm.tsx`): its field state, the name and description (slug) validation, the change, submit and image handlers, and the parent-category picker;
- the category data hooks (`useCategory.ts`): how each query and mutation unwraps the server's `{ success, data, message }` envelope, and which cache keys each mutation invalidates;
- the admin categories page (`AdminCategories.tsx`): `extractApiError`, the page number with Previous/Next, the pagination bar, and the one selected-category slot that drives the edit and delete dialogs;
- the account page (`Profile.tsx`): the tab kept in step with the URL's `tab` parameter, the profile update and the gated password change.

Modules: `Common` (Option, Result), `Text` (JavaScript `trim`, decimal rendering of ids), `Categories` (the entities), `CategoryHooks`, `CategoryForm` (class `Form`), `AdminCategories` (class `Page`) and `Profile` (class `Page`).

Components whose state the source updates in place are classes. Their fields are the component's `useState` slots, and their methods are the handlers. The rules are pure functions, and lemmas state the properties that relate them. Every network call is a parameter holding the outcome the server would give: an `Envelope` reply, a transport error (`Thrown`), or, for the auth service, a `ServiceReply`. An async handler on the account page is split at its `await` into a `Begin…` method and a `Settle…` method. This makes "loading is on while the request is pending" a postcondition. `HandlePasswordChange` composes the two steps.

The parent picker filters the list returned by `useCategories()` with its default arguments. That is the first page of ten categories (key `['categories', 1, 10]`). The model filters whatever list it is given.

## Model

| member | source | states |
|---|---|---|
| Text.TrimStart | web-app/src/components/categories/CategoryForm.tsx:60 | removing leading whitespace never lengthens the string |
| Text.TrimEnd | web-app/src/components/categories/CategoryForm.tsx:60 | removing trailing whitespace never lengthens the string |
| Text.TrimStartSpec | web-app/src/components/categories/CategoryForm.tsx:60 | the result is the suffix left after removing only whitespace, and it does not start with whitespace |
| Text.TrimEndSpec | web-app/src/components/categories/CategoryForm.tsx:60 | the result is the prefix left after removing only whitespace, and it does not end with whitespace |
| Text.Trim | web-app/src/components/categories/CategoryForm.tsx:60 | trimming never lengthens the string, and the empty string trims to itself |
| Text.TrimIsInnerSlice | web-app/src/components/categories/CategoryForm.tsx:60-62 | `trim` returns a contiguous slice of its input; everything cut from either end is whitespace; the slice neither starts nor ends with whitespace |
| Text.TrimEmptyIffBlank | web-app/src/components/categories/CategoryForm.tsx:60 | the trimmed string is empty exactly when every character of the input is whitespace |
| Text.TrimIdempotent | web-app/src/components/categories/CategoryForm.tsx:60-62 | trimming twice gives the same as trimming once |
| Text.DigitChar | web-app/src/components/categories/CategoryForm.tsx:151 | a digit below ten renders as the decimal character with that value |
| Text.Decimal | web-app/src/components/categories/CategoryForm.tsx:151 | an id renders as a non-empty digit string with no leading zero |
| Text.DecimalValue | web-app/src/components/categories/CategoryForm.tsx:140 | `Number` of a digit string is 0 exactly when every digit is `0` |
| Text.DecimalRoundTrip | web-app/src/components/categories/CategoryForm.tsx:137-151 | `Number` applied to the rendered id gives back the id |
| CategoryForm.Apply | web-app/src/components/categories/CategoryForm.tsx:84 | the changed key holds the new value and every other key keeps its old value |
| CategoryForm.InitialFields | web-app/src/components/categories/CategoryForm.tsx:40-45 | create mode starts with an empty name and slug, no parent and active; edit mode starts from the category's own fields |
| CategoryForm.NameError | web-app/src/components/categories/CategoryForm.tsx:60-66 | a name is accepted exactly when its trimmed length is 2 to 50; it gets "Name is required" exactly when it trims to nothing; any error is one of the three name messages |
| CategoryForm.SlugError | web-app/src/components/categories/CategoryForm.tsx:68-70 | the description fails exactly when it trims to nothing, and then with "Description is required" |
| CategoryForm.NameRules | web-app/src/components/categories/CategoryForm.tsx:60-66 | a blank name gets exactly "Name is required"; a non-blank name shorter than 2 after trimming gets the minimum-length error; longer than 50 gets the maximum-length error; 2 to 50 inclusive gets no error |
| CategoryForm.SlugRule | web-app/src/components/categories/CategoryForm.tsx:68-70 | the description is rejected exactly when it is blank, always with "Description is required" |
| CategoryForm.ComputeErrors | web-app/src/components/categories/CategoryForm.tsx:58-70 | the error map has a name entry exactly when the name rule fails and a slug entry exactly when the slug rule fails, and no other keys; the name entry holds the name rule's message and the slug entry "Description is required" |
| CategoryForm.ValidIff | web-app/src/components/categories/CategoryForm.tsx:57-74 | the form is valid exactly when the trimmed name has 2 to 50 characters and the description is not blank |
| CategoryForm.ParentOptions | web-app/src/components/categories/CategoryForm.tsx:148-149 | a category is offered exactly when it is loaded and, in edit mode, its id differs from the edited one's; in create mode the list is unchanged |
| CategoryForm.ParentOptionsConcat | web-app/src/components/categories/CategoryForm.tsx:148-149 | filtering keeps the loaded order and repeated entries: the options of a concatenation are the concatenated options |
| CategoryForm.ParentOptionsSingle | web-app/src/components/categories/CategoryForm.tsx:148-149 | a single category is offered exactly when it is not the one being edited |
| CategoryForm.NormalizeCategories | web-app/src/components/categories/CategoryForm.tsx:32-34 | no reply gives no categories; a bare array reply gives that array; a page reply gives its `data` |
| CategoryForm.ParseParentChoice | web-app/src/components/categories/CategoryForm.tsx:137-141 | the empty option and only it gives a null parent |
| CategoryForm.ParentChoiceRoundTrip | web-app/src/components/categories/CategoryForm.tsx:137-151 | choosing a category's option sets the parent to that category's id; choosing the empty option clears it |
| CategoryForm.Form.constructor | web-app/src/components/categories/CategoryForm.tsx:40-51 | the form starts from the initial fields, with no errors, no image and the edited category's image as preview |
| CategoryForm.Form.Validate | web-app/src/components/categories/CategoryForm.tsx:57-74 | the old error map is replaced wholesale by the freshly computed one, and the result is true exactly when that map is empty |
| CategoryForm.Form.HandleChange | web-app/src/components/categories/CategoryForm.tsx:80-86 | only the changed field is set, and only that field's error is cleared |
| CategoryForm.Form.HandleSubmit | web-app/src/components/categories/CategoryForm.tsx:88-96 | validates; the callback gets the untrimmed fields plus the current image, exactly once and only when the form is valid |
| CategoryForm.Form.HandleImageChange | web-app/src/components/categories/CategoryForm.tsx:98-104 | the first chosen file becomes the image and its object URL the preview; an empty selection changes nothing |
| CategoryForm.Form.ParentChoices | web-app/src/components/categories/CategoryForm.tsx:31-34 | after the list reply is normalised, the edited category is never among the offered parents |
| CategoryHooks.ListKey | web-app/src/hooks/useCategory.ts:17-19 | the list key is `['categories', page, perPage]`; omitted arguments default to 1 and 10; the key starts with the `all` key |
| CategoryHooks.UnwrapData | web-app/src/hooks/useCategory.ts:23-27 | the request succeeds exactly when `success` holds and data is present, and then returns that data; otherwise the error carries the server message if it is non-empty, else the fallback |
| CategoryHooks.ListQuery | web-app/src/hooks/useCategory.ts:20-28 | list fails without success or data, with the server message or "Failed to fetch categories"; on success it returns the envelope's data |
| CategoryHooks.GetQuery | web-app/src/hooks/useCategory.ts:36-44 | get fails without success or data, with the server message or "Failed to fetch category"; on success it returns the envelope's data |
| CategoryHooks.DetailEnabled | web-app/src/hooks/useCategory.ts:45 | the single-category query runs exactly when the id is non-zero |
| CategoryHooks.CreateMutation | web-app/src/hooks/useCategory.ts:57-68 | create fails without success or data, with the server message or "Failed to create category"; it invalidates exactly the `all` key on success and nothing on failure |
| CategoryHooks.UpdateMutation | web-app/src/hooks/useCategory.ts:80-90 | update fails with exactly "Update failed" exactly when `success` is false; a success without data still succeeds; on success it invalidates exactly `all` and the detail key of its own id |
| CategoryHooks.DeleteMutation | web-app/src/hooks/useCategory.ts:98-105 | delete fails with exactly "Delete failed" exactly when `success` is false, else returns true; on success it invalidates exactly the `all` key |
| CategoryHooks.ErrorsHaveText | web-app/src/hooks/useCategory.ts:23-101 | every error a category hook throws has a non-empty message |
| CategoryHooks.UpdateMoreLenientThanCreate | web-app/src/hooks/useCategory.ts:60-83 | every reply create accepts is accepted by update; a successful reply without data fails create but not update |
| CategoryHooks.InvalidationOnlyOnSuccess | web-app/src/hooks/useCategory.ts:66-105 | each mutation invalidates the `all` key exactly when it succeeds; update names no detail key except its own id's |
| CategoryHooks.DetailKey | web-app/src/hooks/useCategory.ts:10 | a detail key has two parts: the `all` key followed by the numeric id |
| CategoryHooks.AllKeyIsPrefix | web-app/src/hooks/useCategory.ts:8-19 | the list and detail keys begin with the `all` key, and the detail key differs from it |
| AdminCategories.ExtractApiError | web-app/src/pages/admin/AdminCategories.tsx:26-34 | the result is truthy or is the fallback itself, so a non-empty fallback never yields an empty, null or undefined text |
| AdminCategories.FirstTruthyIndex | web-app/src/pages/admin/AdminCategories.tsx:26-34 | the first truthy position of a candidate list: every earlier candidate is falsy |
| AdminCategories.ExtractIsFirstTruthy | web-app/src/pages/admin/AdminCategories.tsx:26-34 | the result is the first truthy value among details[0], message, error and the exception message, else the fallback; a missing link in the chain is skipped |
| AdminCategories.HookErrorShowsItsMessage | web-app/src/pages/admin/AdminCategories.tsx:67-68 | an error thrown by a category hook is shown with its own message |
| AdminCategories.PaginationControls | web-app/src/pages/admin/AdminCategories.tsx:150-172 | the bar appears only when `meta` is present with more than one page; Previous is disabled exactly on page 1 and Next exactly on the last page |
| AdminCategories.FirstOfThreePages | web-app/src/pages/admin/AdminCategories.tsx:150-170 | on page 1 of 3, Previous is disabled and Next is enabled |
| AdminCategories.Page.constructor | web-app/src/pages/admin/AdminCategories.tsx:41-56 | the page starts at 1 with every dialog closed and nothing selected |
| AdminCategories.Page.CurrentListKey | web-app/src/pages/admin/AdminCategories.tsx:41-44 | the current page is fetched under `['categories', page, 10]` |
| AdminCategories.Page.Previous | web-app/src/pages/admin/AdminCategories.tsx:160-162 | the page becomes max(p - 1, 1), so it never drops below 1 |
| AdminCategories.Page.Next | web-app/src/pages/admin/AdminCategories.tsx:170 | the page increases by exactly one |
| AdminCategories.Page.OpenCreate | web-app/src/pages/admin/AdminCategories.tsx:118 | the create modal opens |
| AdminCategories.Page.CloseCreate | web-app/src/pages/admin/AdminCategories.tsx:181 | the create modal closes |
| AdminCategories.Page.CloseEdit | web-app/src/pages/admin/AdminCategories.tsx:194 | the edit modal closes and the selection is kept |
| AdminCategories.Page.CloseDelete | web-app/src/pages/admin/AdminCategories.tsx:210 | the delete confirmation closes and the selection is kept |
| AdminCategories.Page.OnEdit | web-app/src/pages/admin/AdminCategories.tsx:137-140 | the row's category is selected and the edit dialog opens |
| AdminCategories.Page.OnDelete | web-app/src/pages/admin/AdminCategories.tsx:141-144 | the row's category is selected and the delete confirmation opens |
| AdminCategories.Page.HandleCreate | web-app/src/pages/admin/AdminCategories.tsx:62-70 | success closes the create modal and invalidates the `all` key; a failure leaves the modal as it was and shows the extracted error |
| AdminCategories.Page.HandleUpdate | web-app/src/pages/admin/AdminCategories.tsx:72-86 | with no selection nothing is sent or changed; otherwise the selected id is sent; success closes the dialog and clears the selection; a failure leaves both as they were |
| AdminCategories.Page.HandleDelete | web-app/src/pages/admin/AdminCategories.tsx:88-99 | with no selection nothing is sent or changed; otherwise the selected id is sent; success closes the confirmation and clears the selection; a failure leaves both as they were |
| Profile.ParseTab | web-app/src/pages/Profile.tsx:41 | a URL value names a tab exactly when it is `profile`, `security` or `orders` |
| Profile.TabNameRoundTrip | web-app/src/pages/Profile.tsx:28-41 | tab names and tabs correspond one to one |
| Profile.TabFromUrl | web-app/src/pages/Profile.tsx:40-44 | a URL value that is one of the three names selects that tab; any other value, or none, leaves the active tab as it was |
| Profile.SwitchedTabSurvivesUrlSync | web-app/src/pages/Profile.tsx:40-49 | the URL value written by `switchTab` is read back as the same tab |
| Profile.InitialProfile | web-app/src/pages/Profile.tsx:54-59 | each profile field starts from the user's field, or '' when it is missing |
| Profile.PasswordGate | web-app/src/pages/Profile.tsx:89-104 | a mismatched confirmation stops the change before the strength check; a matching weak password stops it next; otherwise the current and new passwords are sent |
| Profile.MismatchBeforeStrength | web-app/src/pages/Profile.tsx:89-97 | a mismatch is reported whatever the strength predicate says |
| Profile.ProfileUpdateAccepted | web-app/src/pages/Profile.tsx:73-74 | a profile reply is accepted exactly when it has `success` and carries a user |
| Profile.Page.constructor | web-app/src/pages/Profile.tsx:34-66 | the profile tab is active, loading is off, the profile fields come from the user and the password fields are empty |
| Profile.Page.SyncTabFromUrl | web-app/src/pages/Profile.tsx:40-44 | the active tab follows the URL only for a valid tab name |
| Profile.Page.SwitchTab | web-app/src/pages/Profile.tsx:46-49 | the active tab and the URL parameter both become the chosen tab, and a later URL sync keeps it |
| Profile.Page.EditProfile | web-app/src/pages/Profile.tsx:138-141 | typing changes only the edited profile field |
| Profile.Page.EditPassword | web-app/src/pages/Profile.tsx:154-160 | typing changes only the edited password field |
| Profile.Page.BeginProfileUpdate | web-app/src/pages/Profile.tsx:68-72 | loading is on while the profile data is sent |
| Profile.Page.SettleProfileUpdate | web-app/src/pages/Profile.tsx:72-83 | the stored user changes only on an accepted reply; loading is off afterwards |
| Profile.Page.BeginPasswordChange | web-app/src/pages/Profile.tsx:86-104 | with a failed check there is no request and loading is untouched; otherwise loading is on and the request is sent |
| Profile.Page.SettlePasswordChange | web-app/src/pages/Profile.tsx:100-115 | the three password fields are cleared only on success and kept on failure or exception; loading is off afterwards |
| Profile.Page.HandlePasswordChange | web-app/src/pages/Profile.tsx:86-116 | the service is called exactly when both checks pass; without a call neither loading nor the fields change; the passwords sent are the current and the new one; after a call loading is off, the fields are cleared only on success, and the toast is "Password updated", the server message, or "Failed to update password" when the service threw |

## Left out

- Rendering: JSX, CSS, skeleton rows, the modal and confirmation components, and how toasts are displayed. A handler returns the toast text it would show.
- The cache library's own behaviour: storage, prefix matching of keys, staleness, `keepPreviousData` and re-fetch timing. A mutation reports only the keys it passes to `invalidateQueries`.
- The category API, auth service and HTTP client are not part of this model. Each call is replaced by the reply or exception it yields.
- `validatePassword` is not part of this model. It is a function parameter (`isStrong`) with no assumed properties.
- `URL.createObjectURL` and `File` objects: a chosen file is an opaque `ImageFile` handle, and its object URL is a parameter.
- String length counts Unicode scalar values, not UTF-16 code units, so names containing characters outside the Basic Multilingual Plane may measure differently. The `trim` whitespace set is the ECMAScript one, written out in `Text.IsSpace`.
- JavaScript numbers: ids are non-negative integers, `NaN` and fractional values are not modelled, and `Number` is modelled only on the option values the parent picker itself renders.
- `AdminCategories.JsValue` keeps only what truthiness needs, and `NaN` is not one of its cases.
- The form's error map drops a key where the component stores `undefined` under it. No reader of the map can tell the two apart.
- The account page's early `return null` when no user is signed in: the model's page always has a user.
- Overlapping requests, such as a second submit before the first settles: each `Begin…` is followed by its own `Settle…`.
- The orders tab of the account page, the order hooks and service, the home page category section and the admin layout are not part of this model.
