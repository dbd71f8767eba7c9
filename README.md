# A Dafny model of the demo site's page logic

The site is a small Next.js demo. Four of its parts hold state and validation
logic, and this project models those four and proves properties about them:

- **The settings store** (`components/settings-provider.tsx`), in `settings.dfy`.
  - It holds four preferences: text size, dark mode, animations and colour scheme. They start at the defaults.
  - It is loaded once from the `appSettings` entry of local storage, merged over the defaults.
  - Once loaded, every change is applied to the document and written back to storage. The document changes are the root font size, one `theme-*` class, the `dark` class and the body colours.
- **The product table** (`app/data/page.tsx`), in `data.dfy`.
  - Derived views: the distinct categories, and the list filtered by search text and category, then sorted by a column in either direction.
  - Handlers: the sort header, delete, edit, save edit and add.
- **The contact form** (`app/contact/page.tsx`), in `contact.dfy`.
  - The e-mail check and the four field rules.
  - Submit gating, the delayed reset, and typing into a field, which clears that field's error.
- **The image gallery** (`app/gallery/page.tsx`), in `gallery.dfy`.
  - A wrap-around index over six images, moved by previous/next, by the slideshow timer and by a thumbnail click.
  - A play/pause flag.

Two support modules hold what the pages take from JavaScript:

- `wrappers.dfy`: `Option`.
- `text.dfy`:
  - the `\s` class and `trim`;
  - `toLowerCase` and `includes`;
  - `localeCompare`;
  - `Number(text)` and `toString` on integers.

Each page's state is a class. Its fields are the page's `useState` variables, except the product fetch's `loading` and `error`, and each handler is a method with a `modifies` clause naming the fields it sets. Pure derivations are functions. The properties are stated as the methods' and functions' contracts, and as lemmas.

## Model

| member | source | states |
|---|---|---|
| SettingsProvider.Get | components/settings-provider.tsx:7-12 | `settings[key]` has the type of field `key` |
| SettingsProvider.With | components/settings-provider.tsx:76-78 | `{...prev, [key]: value}` sets field `key` to `value` and leaves every other field as it was |
| SettingsProvider.UpdateWithCurrentValueIsIdentity | components/settings-provider.tsx:76-78 | re-setting a field to its current value leaves the record unchanged |
| SettingsProvider.Merge | components/settings-provider.tsx:38 | `{...defaultSettings, ...parsed}`: each field the parsed object carries wins, every missing field keeps the base value |
| SettingsProvider.Encode | components/settings-provider.tsx:73 | the stored record carries every field, with the settings' value |
| SettingsProvider.EncodeRoundTrip | components/settings-provider.tsx:73 | merging the stored record over any base gives back exactly the settings that were stored |
| SettingsProvider.LoadedSettings | components/settings-provider.tsx:33-44 | definition of the settings the load step reaches; specified by LoadFallbacks and used by Mount |
| SettingsProvider.LoadFallbacks | components/settings-provider.tsx:33-44 | absent or unparseable storage leaves `{16, false, true, default}`; a stored `{darkMode: true}` changes only dark mode |
| SettingsProvider.AppliedClasses | components/settings-provider.tsx:53-70 | after apply, the scheme classes are exactly `{theme-<scheme>}` (none for default); `dark` is present iff dark mode is on; every other class is untouched |
| SettingsProvider.BodyBackground | components/settings-provider.tsx:64-68 | definition: `#111827` dark and `#ffffff` light under the default scheme, `""` under the others; specified by BackgroundRule |
| SettingsProvider.BodyColor | components/settings-provider.tsx:65-69 | definition: `#f9fafb` in dark mode, `#111827` in light mode |
| SettingsProvider.Applied | components/settings-provider.tsx:51-70 | definition of the applied document: font size, AppliedClasses, BodyBackground, BodyColor; the result of ApplyEffect |
| SettingsProvider.BackgroundRule | components/settings-provider.tsx:62-70 | under the default scheme, dark mode changes the body background; under any other scheme the background is `""` in both modes |
| SettingsProvider.LaterSchemeWins | components/settings-provider.tsx:53-59 | applying one scheme and then a non-default one leaves only the second one's class |
| SettingsProvider.SettingsStore.constructor | components/settings-provider.tsx:29-30 | the store starts at the defaults, not loaded |
| SettingsProvider.SettingsStore.LoadEffect | components/settings-provider.tsx:33-44 | a parsed stored value is merged over the defaults; otherwise the settings stay; the store is loaded either way |
| SettingsProvider.SettingsStore.ApplyEffect | components/settings-provider.tsx:47-74 | before load, document and storage are untouched; after load, the document is the applied one and `appSettings` holds the encoded settings |
| SettingsProvider.SettingsStore.UpdateSetting | components/settings-provider.tsx:76-78 | the settings become `With(old settings, key, value)` |
| SettingsProvider.Mount | components/settings-provider.tsx:28-74 | a page load ends loaded, with the settings read from storage, the document applied and storage rewritten with them |
| SettingsProvider.BeforeLoad | components/settings-provider.tsx:48 | before the load effect, the settings are the defaults and apply changes neither document nor storage |
| SettingsProvider.ReloadReproduces | components/settings-provider.tsx:33-78 | whatever record the user sets field by field, a fresh store over the storage left behind loads exactly that record |
| SettingsProvider.BlueThenGreen | components/settings-provider.tsx:53-59 | choosing blue and then green leaves exactly `theme-green` |
| SettingsProvider.UpdateToCurrentValue | components/settings-provider.tsx:76-78 | re-selecting the current value leaves the settings and the stored record as they were |
| Text.TrimStart | app/contact/page.tsx:59 | the result is a suffix of the input, what was removed is whitespace, and the result does not start with whitespace |
| Text.TrimEnd | app/contact/page.tsx:59 | the result is a prefix of the input, what was removed is whitespace, and the result does not end with whitespace |
| Text.Trim | app/contact/page.tsx:59 | definition of `trim` as TrimEnd after TrimStart; specified by TrimEmptyIffBlank |
| Text.TrimEmptyIffBlank | app/contact/page.tsx:58-66 | `s.trim() === ""` iff every character of `s` is whitespace |
| Text.Lower | app/data/page.tsx:123-124 | lower-casing keeps the length |
| Text.LowerIdempotent | app/data/page.tsx:123-124 | lower-casing twice is lower-casing once |
| Text.Includes | app/data/page.tsx:123-124 | definition of `includes`; specified by IncludesIff |
| Text.IncludesIff | app/data/page.tsx:122-124 | `hay.includes(needle)` iff `needle` occurs in `hay` at some index |
| Text.CompareStrings | app/data/page.tsx:140 | the comparison is -1, 0 or 1, and 0 exactly for equal strings |
| Text.CompareStringsAntisymmetric | app/data/page.tsx:140 | swapping the operands negates the comparison |
| Text.CompareStringsTransitive | app/data/page.tsx:140 | "not after" is transitive |
| Text.NatText | app/data/page.tsx:168 | the decimal text of a natural number is non-empty and all digits |
| Text.IntText | app/data/page.tsx:168 | `toString` of an integer is non-empty; specified by IntTextRoundTrip |
| Text.ParseNumber | app/data/page.tsx:195 | definition of `Number(text)` on integer text, `""` reading as 0 and anything else as NaN (None); specified by IntTextRoundTrip |
| Text.IntTextRoundTrip | app/data/page.tsx:168-174 | `Number(n.toString()) === n` for every integer |
| DataPage.Keep | app/data/page.tsx:121-127 | `filter` keeps each element that passes the test as often as it occurs, drops every other one, and never lengthens the list |
| DataPage.KeepAppend | app/data/page.tsx:121-127 | filtering keeps the original order: filtering a concatenation is concatenating the filtered parts |
| DataPage.MaxId | app/data/page.tsx:231 | on a non-empty list, the maximum id bounds every id and is the id of some product |
| DataPage.MaxOfIds | app/data/page.tsx:231 | `Math.max(...ids)` is finite iff some id is finite, and then it bounds every finite id and is one of the ids |
| DataPage.NextIdAsWritten | app/data/page.tsx:231 | definition of `Math.max(...ids) + 1` with `-Infinity + 1 = -Infinity`; specified by NextIdAsWrittenOnNonEmpty and NextIdAsWrittenRepeatsAfterEmptying |
| DataPage.NextIdAsWrittenOnNonEmpty | app/data/page.tsx:231 | on a non-empty list, `Math.max(...ids) + 1` is one past the largest id |
| DataPage.NextIdAsWrittenRepeatsAfterEmptying | app/data/page.tsx:231 | on an empty list the new id is -Infinity, and the next product added gets the same id |
| DataPage.NextId | app/data/page.tsx:231 | the new id is above every existing id, and agrees with the source on every non-empty list |
| DataPage.KeepPreservesUniqueIds | app/data/page.tsx:161 | a filtered list of products with distinct ids has distinct ids |
| DataPage.Distinct | app/data/page.tsx:114 | `Array.from(new Set(xs))` has no duplicates, holds exactly the values of `xs`, and lists them in the order of their first occurrence |
| DataPage.CategoryList | app/data/page.tsx:114 | `products.map((p) => p.category)`: one category per product, in list order |
| DataPage.Categories | app/data/page.tsx:113-116 | the categories have no duplicates, a value is listed iff some product has it as category, and they are listed in the order of their first occurrence in the product list |
| DataPage.Matches | app/data/page.tsx:121-127 | definition of the filter test; specified by MatchesIff |
| DataPage.Filter | app/data/page.tsx:121-127 | the filtered list holds each matching product as often as the list does, and no other product |
| DataPage.MatchesIff | app/data/page.tsx:121-127 | a product passes the filter iff the lower-cased search term occurs in its lower-cased title or description, and the filter is `"all"` or its category |
| DataPage.EmptySearchMatchesAll | app/data/page.tsx:121-127 | an empty search with the `"all"` filter lets every product through |
| DataPage.Compare | app/data/page.tsx:129-148 | definition of the comparator: `rating.rate` for the rating column, string order for text columns, difference for number columns, reversed for `desc`; specified by CompareAntisymmetric and CompareTransitive |
| DataPage.CompareAntisymmetric | app/data/page.tsx:129-148 | swapping the operands of the comparator negates it, for every column and direction |
| DataPage.CompareTransitive | app/data/page.tsx:129-148 | the comparator's "not after" is transitive, for every column and direction |
| DataPage.Insert | app/data/page.tsx:129-148 | inserting into a sorted list gives a sorted list with one more copy of the element |
| DataPage.Sort | app/data/page.tsx:129-148 | the sorted list is in comparator order and is a permutation of the input |
| DataPage.SortOfSortedIsIdentity | app/data/page.tsx:129-148 | a list already in order comes back unchanged, so equal products keep their relative order |
| DataPage.SortIdempotent | app/data/page.tsx:129-148 | sorting a sorted view again changes nothing |
| DataPage.FilteredAndSorted | app/data/page.tsx:118-149 | the view is in comparator order, holds each matching product as often as the list does and no other product, and is empty for an empty list |
| DataPage.FormOf | app/data/page.tsx:166-176 | the edit form copies the product's text fields, and its number fields are text that reads back as the product's price, rate and count |
| DataPage.UpdateGuard | app/data/page.tsx:181-188 | definition: a truthy editing id (not null, not 0), and non-empty title, category, description, price and rate; used by HandleUpdateProduct |
| DataPage.Edited | app/data/page.tsx:190-204 | the edited product keeps its id and takes every other field from the form, numbers as `Number()` reads them |
| DataPage.ApplyEdit | app/data/page.tsx:189-206 | saving an edit keeps the length and every id; products with another id are unchanged; those with the editing id take the form's values |
| DataPage.EditThenSaveIsIdentity | app/data/page.tsx:164-206 | opening the editor on a product and saving without changes leaves the list as it was |
| DataPage.AddGuard | app/data/page.tsx:224-230 | definition: non-empty title, category, description, price and rate; used by HandleAddProduct |
| DataPage.NewProductFrom | app/data/page.tsx:231-245 | the new product has the given id; title, category and description come from the form; price, rate and a readable count are the form's numbers as `Number()` reads them; an unreadable count becomes 0; an empty image becomes the default URL |
| DataPage.AddKeepsIdsUnique | app/data/page.tsx:231-246 | the new id differs from every existing id, so appending keeps the ids distinct |
| DataPage.Without | app/data/page.tsx:161 | deleting by id keeps exactly the products with another id, each as often as before |
| DataPage.DeleteKeepsIdsUnique | app/data/page.tsx:161 | deleting keeps the ids distinct |
| DataPage.DeleteAbsentId | app/data/page.tsx:161 | deleting an id no product has changes nothing |
| DataPage.ProductTable.constructor | app/data/page.tsx:55-86 | once the fetch delivers, the table shows the list with no search, the `"all"` filter, title ascending, dialogs closed and forms empty |
| DataPage.ProductTable.HandleSort | app/data/page.tsx:151-158 | the same column flips the direction; another column becomes the sort column, ascending |
| DataPage.ProductTable.HandleDelete | app/data/page.tsx:160-162 | the products with that id are removed, the rest keep their order, and distinct ids stay distinct |
| DataPage.ProductTable.HandleEdit | app/data/page.tsx:164-178 | the editing id is the product's, the form holds its fields with numbers as text, and the dialog is open |
| DataPage.ProductTable.HandleUpdateProduct | app/data/page.tsx:180-221 | under the guard, the edit is applied, the id cleared, the form emptied and the dialog closed; otherwise nothing changes; distinct ids stay distinct |
| DataPage.ProductTable.HandleAddProduct | app/data/page.tsx:223-260 | under the guard, exactly one product with a fresh id is appended, the form emptied and the dialog closed; otherwise nothing changes; distinct ids stay distinct |
| ContactPage.IndexOf | app/contact/page.tsx:41 | the result is the index of the first `@`, or the length when there is none |
| ContactPage.ValidateEmail | app/contact/page.tsx:40-43 | definition: no whitespace, a first `@` after index 0 with no later `@`, and a `.` after it that is neither first nor last there; specified by ValidateEmailMatchesPattern |
| ContactPage.AcceptedEmailMatchesPattern | app/contact/page.tsx:40-43 | every address the check accepts has the shape of the regular expression |
| ContactPage.MatchedEmailAccepted | app/contact/page.tsx:40-43 | every address of the regular expression's shape is accepted |
| ContactPage.ValidateEmailMatchesPattern | app/contact/page.tsx:40-43 | the check holds iff there is no whitespace, exactly one `@` with text before it, and a `.` after it that is neither first nor last there |
| ContactPage.WithField | app/contact/page.tsx:101 | the field takes the value and the other three are kept |
| ContactPage.ChecksDecideRules | app/contact/page.tsx:48-66 | each test `validateForm` runs fails exactly when its field breaks its rule |
| ContactPage.ContactForm.constructor | app/contact/page.tsx:30-38 | the form starts empty, with no errors, not submitted |
| ContactPage.ContactForm.ValidateForm | app/contact/page.tsx:45-70 | the errors become exactly the messages of the failing fields, and the result is true iff there are none, iff every field meets its rule |
| ContactPage.ContactForm.HandleSubmit | app/contact/page.tsx:72-85 | the form is marked submitted iff every field meets its rule; otherwise the flag stays as it was |
| ContactPage.ContactForm.ResetAfterSubmit | app/contact/page.tsx:88-96 | the reset empties the four fields and clears the submitted flag |
| ContactPage.ContactForm.HandleInputChange | app/contact/page.tsx:100-107 | the field takes the value; that field's error is cleared; every other error stays |
| GalleryPage.Next | app/gallery/page.tsx:73-75 | the next index is `(i + 1) mod n`, always in range |
| GalleryPage.Previous | app/gallery/page.tsx:69-71 | the previous index is `(i - 1) mod n`, always in range |
| GalleryPage.NextPreviousInverse | app/gallery/page.tsx:69-75 | next then previous, and previous then next, restore the index |
| GalleryPage.Advance | app/gallery/page.tsx:58 | any number of ticks keeps the index in range |
| GalleryPage.AdvanceIsModular | app/gallery/page.tsx:53-67 | `k` ticks from index `i` land on `(i + k) mod 6` |
| GalleryPage.Gallery.constructor | app/gallery/page.tsx:50-51 | the gallery starts on the first image, paused |
| GalleryPage.Gallery.GoToPrevious | app/gallery/page.tsx:69-71 | the index moves to `Previous` and stays in range; the play flag is not touched |
| GalleryPage.Gallery.GoToNext | app/gallery/page.tsx:73-75 | the index moves to `Next` and stays in range; the play flag is not touched |
| GalleryPage.Gallery.Tick | app/gallery/page.tsx:57-59 | a timer tick moves the index exactly as `goToNext` does |
| GalleryPage.Gallery.SelectThumbnail | app/gallery/page.tsx:146 | a thumbnail click sets the index to that thumbnail's |
| GalleryPage.Gallery.ToggleSlideshow | app/gallery/page.tsx:77-79 | the play flag flips and the index is not touched |
| GalleryPage.Slideshow | app/gallery/page.tsx:53-79 | after `t` ticks from the start the index is `t mod 6`, and next then previous returns to it |

## Left out

- The product fetch (`app/data/page.tsx:89-111`), its loading and error screens, and all rendering are not modelled. The fetched list is the constructor's parameter.
- `JSON.parse`, `JSON.stringify` and `localStorage` are not modelled as text. A stored value is either unparseable or an object with optional, correctly typed fields.
- SettingsProvider.Merge: a parsed object with extra or wrongly typed fields is not modelled. The source copies such fields into the settings unchecked.
- SettingsProvider.LoadedSettings: an empty stored string is modelled as unparseable. The source skips it as falsy, with the same outcome.
- SettingsProvider.SettingsStore.LoadEffect: the parse error is only logged in the source, and the log is not modelled.
- The `useSettings` context check and the React context plumbing are not modelled.
- The settings page limits the text size to 12–24 with its slider. The store does not enforce that range, so the model does not either.
- Prices, ratings and counts are integers here; JavaScript numbers with fractions are not modelled.
- DataPage.ProductTable.HandleUpdateProduct: requires that the guarded form's numbers parse. `Number(...)` returning NaN is not modelled; the dialogs' number inputs only hand back numeric text or `""`.
- DataPage.ProductTable.HandleAddProduct: the same requirement holds for price and rate. A count that does not parse becomes 0, as in the source. On an empty list the new id is the corrected one (see Findings), not `-Infinity`.
- `Number(text)` is modelled on integer text only. Surrounding whitespace, exponents and hexadecimal forms are not modelled.
- `localeCompare` is modelled as code-point order, not the locale's collation.
- `toLowerCase` is modelled on A–Z only.
- Lengths count code points, while JavaScript counts UTF-16 code units. This affects the username's 8-character minimum for characters outside the Basic Multilingual Plane.
- DataPage.Sort: `Array.prototype.sort` is modelled as a stable insertion sort that returns a new list. The source sorts a fresh array in place. Stability is stated only for input already in order (`SortOfSortedIsIdentity`), not for arbitrary input.
- The comparator's fallback `return 0`, for mismatched value kinds, is modelled but cannot arise: each column has one kind.
- `setSearchTerm`, `setFilterCategory` and the dialogs' open/close bindings are plain field assignments from inputs and are not modelled as methods. The filtered view takes the search and filter as parameters.
- ContactPage.ContactForm.HandleInputChange: `errors[field] = undefined` is modelled as removing the key. Both hide the message and make `errors[field]` falsy.
- The `console.log` output of a submit and the three-second `setTimeout` are not modelled. `ResetAfterSubmit` is the state the timer's callback produces.
- The slideshow's `setInterval` and its cleanup are not modelled. `Tick` is the callback and may run only while the slideshow plays.
- GalleryPage.Images: the fixed image list is a constant sequence rather than an array, since the page never changes it.

## Findings

| source | as written | input that shows it | evidently intended | confidence | as-written member | corrected member |
|---|---|---|---|---|---|---|
| app/data/page.tsx:231 | the new id is `Math.max(...products.map((p) => p.id)) + 1`, and `Math.max()` of no ids is `-Infinity` | delete every product, then add two: both get the id `-Infinity`, so one delete removes both | a fresh finite id on every add, e.g. 1 when the list is empty | not executed; follows from `Math.max` returning `-Infinity` for no arguments | DataPage.NextIdAsWrittenRepeatsAfterEmptying | DataPage.NextId |
