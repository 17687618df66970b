# Tabang SOS: form and hotline logic in Dafny

Tabang SOS is a disaster-response web app for Cebu. People use it to ask for
help or to pin a relief source on a shared map, and it lists emergency
hotlines. This project models the parts of the app that hold logic of their
own and proves properties about them:

- **The "Request Emergency Help" panel** (`AskHelpPanel.jsx`) is modelled as
  the class `AskHelp.AskHelpPanel`.
  - Its React state becomes the class's fields, and each state setter call
    becomes an assignment to one of them. The event handlers, effects and
    asynchronous callbacks become methods, each with a field-level
    `modifies`.
  - The validator builds its error object field by field (`CollectErrors`).
    It is proved equal to a per-key specification, and proved to report no
    error exactly when the form is ready.
  - Change handlers clear only their own field's error. Editing the search
    text drops the coordinates. A search query runs only when its trimmed text
    is at least 3 UTF-16 code units long (`.length` counts a character outside
    the Basic Multilingual Plane, such as an emoji, twice).
  - One press of "Use My Current Location" is the class
    `AskHelp.LocationRequest`. It holds the `locationRetrieved` flag, shared
    by the success callback, the error callback and the 7-second fallback
    timer.
  - The reverse-geocoded city is the first truthy one of city, town and
    village.
- **The "Pinpoint a Source" panel** (`PinSourcePanel.jsx`) is modelled as the
  class `PinSource.PinSourcePanel`.
  - Its change handlers and search work like the help panel's, and its
    validator makes the same checks without the title. It has no city and no
    current location, and it also behaves differently:
    - Its position request has no fallback: an error only stops the spinner.
    - Its position callback clears the location error (by the errors of the
      click); the help panel's position callbacks never touch the errors, so
      a location message raised by a submit stays after they succeed.
    - Choosing a search result takes effect at once; the help panel first
      awaits a reverse lookup of the city.
- **What both panels share** is in `FormCommon`:
  - the error object, one optional message per key;
  - the category multi-select toggle;
  - the contact-number check;
  - the location requirement;
  - the minimum search length.
- **Supporting modules:**
  - The Philippine mobile-number pattern `^(?:\+63|0)?9\d{9}$` is
    `PhonePattern`. A deterministic matcher is proved equivalent to a
    declarative reading of the regular expression.
  - JavaScript `trim`, `toLowerCase` and `includes` are in `Text`.
  - `Array.prototype.filter` and the subsequence relation are in `Seqs`.
- **The emergency-hotline directory** (`EmergencyContactsPage.jsx`) is the
  pure module `Hotlines`.
  - The dropdown options.
  - The select, narrow and drop-empty pipeline over categories of contacts:
    - every contact it shows matches the search;
    - it is complete;
    - its output embeds in its input;
    - "No contacts found" shows exactly when nothing matched.
  - The `tel:` target of a displayed number.

Floating-point coordinates become exact `real`s. Browser callbacks to the
caller become out-parameters: `onSubmitHelp`, `onSubmitSource` and
`onPreviewLocation`. The answers of the geocoder and of the browser's
geolocation become method parameters.

Where the behaviour is described only in prose and the code does something
more specific, the model follows the code:
- **The fallback timer does not set `locationRetrieved`.** Only the success
  and error callbacks set it, and they also cancel the timer.
  - A success or error that arrives before the timer fires therefore wins,
    and the timer then changes nothing (`OnTimeout`, `ErrorThenTimeout`).
  - A success that arrives after the fallback was applied still replaces
    it.
- **The location error is cleared from a stale copy of the errors.** The
  position callback of "Use My Current Location" in the source panel, and
  the place-selection handler of the help panel after its awaited reverse
  lookup, test the errors of the render in which the button or result was
  clicked. The model passes that snapshot along (`clickErrors`). So a
  "Please set a location" message raised by a submit while the position or
  lookup is pending stays on screen after the location arrives
  (`SubmitWhileLocating`, `SubmitWhileSelecting`).
- **Submitting a valid form does not reset it.** It only hands the form to
  the caller; the reset happens when the panel is opened again
  (`OnOpenEffect`).

## Model

| member | source | states |
|---|---|---|
| PhonePattern.Matches | src/pages/modals/AskHelpPanel.jsx:9 | the matcher accepts a string exactly when it is in the language of the mobile-number pattern: an optional `+63` or `0`, then `9`, then nine digits |
| PhonePattern.AcceptedShape | src/pages/modals/PinSourcePanel.jsx:11 | an accepted number has length 10, 11 or 13, is all digits apart from a leading `+`, and starts with `9`, `09` or `+639` |
| PhonePattern.Examples | src/pages/modals/AskHelpPanel.jsx:9 | the sample numbers from the error messages are accepted; a number without the `9`, one digit short, or with dashes is rejected |
| Text.LeadingSpace | src/pages/modals/AskHelpPanel.jsx:83 | counts the whitespace `trim()` cuts at the front: every character before the count is whitespace and the one at the count is not |
| Text.TrailingSpace | src/pages/modals/AskHelpPanel.jsx:83 | counts the whitespace `trim()` cuts at the back: every character after the cut is whitespace and the one just before it is not |
| Text.TrimStart | src/pages/modals/AskHelpPanel.jsx:83 | the result is a suffix of the input; only whitespace is cut; the result does not start with whitespace |
| Text.TrimEnd | src/pages/modals/AskHelpPanel.jsx:83 | the result is a prefix of the input; only whitespace is cut; the result does not end with whitespace |
| Text.Trim | src/pages/modals/AskHelpPanel.jsx:83 | `trim()` is a contiguous slice of the input with no whitespace at either end; it is empty exactly when every character is whitespace |
| Text.TrimCutsWhitespace | src/pages/modals/AskHelpPanel.jsx:83 | everything `trim()` cuts off, before and after the slice it keeps, is whitespace |
| Text.IsBlank | src/pages/modals/AskHelpPanel.jsx:83 | a string is blank exactly when every character is whitespace |
| Text.BlankIffTrimEmpty | src/pages/modals/AskHelpPanel.jsx:83 | `!s.trim()` holds exactly for the blank strings |
| Text.Utf16Length | src/pages/modals/AskHelpPanel.jsx:43 | `.length` of one character is 1 inside the Basic Multilingual Plane and 2 outside it; it lies between the number of characters and twice it, and equals it when every character is in the Basic Multilingual Plane |
| Text.Utf16Concat | src/pages/modals/AskHelpPanel.jsx:43 | `.length` of a concatenation is the sum of the lengths, so with the one-character case it counts every character outside the Basic Multilingual Plane twice |
| Text.ToLower | src/pages/EmergencyContactsPage.jsx:21 | the result has the input's length and no upper-case ASCII letter; an upper-case letter becomes its lower-case letter and every other character is kept |
| Text.ToLowerIdempotent | src/pages/EmergencyContactsPage.jsx:21 | lower-casing twice is the same as lower-casing once |
| Text.Contains | src/pages/EmergencyContactsPage.jsx:21 | `includes` holds exactly when the needle occurs at some offset of the haystack |
| Seqs.Filter | src/pages/EmergencyContactsPage.jsx:14-30 | every kept element is in the input and passes the test; every input element that passes is kept; the result is a subsequence of the input; no duplicate is introduced |
| Seqs.FilterMultiplicity | src/pages/EmergencyContactsPage.jsx:14-30 | the result holds each passing element exactly as often as the input does, and no failing element |
| Seqs.FilterConcat | src/pages/modals/AskHelpPanel.jsx:120 | filtering distributes over concatenation |
| Seqs.FilterKeepsAll | src/pages/modals/AskHelpPanel.jsx:120 | a filter that every element passes returns its input unchanged |
| Seqs.SubsequenceTransitive | src/pages/EmergencyContactsPage.jsx:13-30 | a subsequence of a subsequence is a subsequence |
| Seqs.PrefixIsSubsequence | src/pages/EmergencyContactsPage.jsx:118 | every prefix of a sequence is a subsequence of it |
| FormCommon.Errors.Clear | src/pages/modals/AskHelpPanel.jsx:111-113 | clearing a key removes its message and leaves every other key's message as it was |
| FormCommon.SearchQualifies | src/pages/modals/AskHelpPanel.jsx:43 | a search qualifies when its trimmed text has at least 3 characters, never with fewer than 2; with 2 exactly when one of them lies outside the Basic Multilingual Plane; and, when every character is in that plane, exactly when it has at least 3 |
| FormCommon.TwoEmojiQualify | src/pages/modals/AskHelpPanel.jsx:43 | two emoji are 4 UTF-16 code units, so they are searched for |
| FormCommon.TwoLettersDoNotQualify | src/pages/modals/AskHelpPanel.jsx:43 | two letters are not searched for |
| FormCommon.HasLocation | src/pages/modals/AskHelpPanel.jsx:100 | a location is set exactly when there are coordinates or the trimmed location text is not empty |
| FormCommon.ToggleCategory | src/pages/modals/AskHelpPanel.jsx:116-123 | an unselected category is appended at the end; a selected one is removed, leaving a strictly shorter subsequence; membership flips only for the toggled name; no duplicate is ever introduced |
| FormCommon.RemovalShortens | src/pages/modals/PinSourcePanel.jsx:107-108 | a subsequence that misses one of the list's elements is strictly shorter than the list |
| FormCommon.SubsequenceShorter | src/pages/modals/PinSourcePanel.jsx:107-108 | a subsequence is no longer than the list it comes from |
| FormCommon.ToggleTwice | src/pages/modals/PinSourcePanel.jsx:104-111 | toggling twice restores the selection as a set; for an unselected name it restores the exact list; for a selected name (in a duplicate-free list) the name comes back at the end |
| FormCommon.ContactNumberError | src/pages/modals/AskHelpPanel.jsx:95-99 | no error exactly when the trimmed number matches the pattern; a blank number gets "required"; a non-blank, non-matching one gets the format message |
| AskHelp.WithField | src/pages/modals/AskHelpPanel.jsx:110 | the named input takes the new value; every other input, the categories, the location text, the coordinates and the city keep theirs |
| AskHelp.HelpErrorsEmptyIff | src/pages/modals/AskHelpPanel.jsx:81-106 | the validator reports no error exactly when title, description and full name are non-blank, a category is chosen, the trimmed phone matches, and coordinates or a non-blank location text are set |
| AskHelp.ContactMessagesExclusive | src/pages/modals/AskHelpPanel.jsx:95-99 | the contact number has an error exactly when its trimmed text fails the pattern; "required" exactly when it is blank; the format message exactly when it is not blank and fails |
| AskHelp.CollectErrors | src/pages/modals/AskHelpPanel.jsx:82-103 | the error object built by the successive field checks is the per-key specification, and it is empty exactly when the form is ready |
| AskHelp.FirstTruthy | src/pages/modals/AskHelpPanel.jsx:73 | the chain of logical ors ending in `''` is empty exactly when no candidate is truthy, and is otherwise the first truthy candidate |
| AskHelp.CityFromResponse | src/pages/modals/AskHelpPanel.jsx:67-79 | a failed lookup or an answer without an address gives `''`; otherwise the city field if truthy, else the town if truthy, else the village if truthy, else `''` |
| AskHelp.AskHelpPanel.constructor | src/pages/modals/AskHelpPanel.jsx:13-30 | the panel starts with the initial form, no errors, no search text or results, no current location and no spinners |
| AskHelp.AskHelpPanel.OnOpenEffect | src/pages/modals/AskHelpPanel.jsx:32-40 | opening resets the form, errors, search text, results and current location; closing changes nothing |
| AskHelp.AskHelpPanel.OnLocationSearchEffect | src/pages/modals/AskHelpPanel.jsx:42-52 | a fetch is scheduled exactly when the trimmed search is at least 3 UTF-16 code units long; otherwise the results are emptied |
| AskHelp.AskHelpPanel.OnLocationsFetched | src/pages/modals/AskHelpPanel.jsx:54-66 | a successful lookup replaces the results, a failed one keeps them, and the spinner stops either way |
| AskHelp.AskHelpPanel.ValidateForm | src/pages/modals/AskHelpPanel.jsx:81-106 | stores the validator's error object and returns true exactly when the form is ready |
| AskHelp.AskHelpPanel.HandleChange | src/pages/modals/AskHelpPanel.jsx:108-114 | only the named field changes, and only that field's error is cleared |
| AskHelp.AskHelpPanel.HandleCategoryToggle | src/pages/modals/AskHelpPanel.jsx:116-127 | the category list is toggled, nothing else in the form changes, and only the category error is cleared |
| AskHelp.AskHelpPanel.HandleLocationSearchChange | src/pages/modals/AskHelpPanel.jsx:129-136 | the location text becomes exactly the typed text, the coordinates and current location are dropped, and the location error is cleared |
| AskHelp.AskHelpPanel.HandleLocationSelect | src/pages/modals/AskHelpPanel.jsx:138-140 | choosing a place changes nothing until the reverse lookup answers; it keeps the place and the errors of the click |
| AskHelp.AskHelpPanel.CompleteLocationSelect | src/pages/modals/AskHelpPanel.jsx:140-153 | the chosen place's name, position and reverse-geocoded city are set, the results and current location are emptied, the location error is cleared only if the errors of the click had one, and the position is previewed |
| AskHelp.AskHelpPanel.HandleUseCurrentLocation | src/pages/modals/AskHelpPanel.jsx:156-165 | without geolocation nothing is requested and the spinner is off; otherwise a fresh request with its flag unset is started |
| AskHelp.AskHelpPanel.HandleSubmit | src/pages/modals/AskHelpPanel.jsx:233-240 | the form is handed to the submit handler exactly when the validator passes |
| AskHelp.LocationRequest.constructor | src/pages/modals/AskHelpPanel.jsx:165 | a request starts with `locationRetrieved` false |
| AskHelp.LocationRequest.OnSuccess | src/pages/modals/AskHelpPanel.jsx:186-209 | sets the flag, the coordinates, the label `Current Location (lat, lon)` in the form and the search box, and the current location; stops the spinner; previews the position |
| AskHelp.LocationRequest.OnCityFetched | src/pages/modals/AskHelpPanel.jsx:204-206 | the reverse-geocoded city is stored and nothing else in the form changes |
| AskHelp.LocationRequest.ApplyFallback | src/pages/modals/AskHelpPanel.jsx:170-180 | the Cebu City fallback (coordinates 10.3157, 123.8854, its label and city) is set in the form, the search box and the current location |
| AskHelp.LocationRequest.OnError | src/pages/modals/AskHelpPanel.jsx:210-228 | sets the flag, applies the Cebu City fallback and previews it |
| AskHelp.LocationRequest.OnTimeout | src/pages/modals/AskHelpPanel.jsx:167-183 | once a callback has set the flag the timer changes nothing; before that it applies the fallback without setting the flag |
| AskHelp.EmptyFormLacksLocation | src/pages/modals/AskHelpPanel.jsx:100-102 | validating the initial form reports the missing location |
| AskHelp.SubmitWhileSelecting | src/pages/modals/AskHelpPanel.jsx:138-153 | a submit while the reverse lookup is pending leaves the location message on screen although the form then has a location |
| AskHelp.ErrorThenTimeout | src/pages/modals/AskHelpPanel.jsx:167-228 | after an error callback and then the timer, the panel holds the fallback location set by the error callback |
| PinSource.WithField | src/pages/modals/PinSourcePanel.jsx:97 | the named input takes the new value; every other input, the categories, the location text and the coordinates keep theirs |
| PinSource.SourceErrorsEmptyIff | src/pages/modals/PinSourcePanel.jsx:70-93 | the validator (with no title check) reports no error exactly when a category is chosen, description and full name are non-blank, the trimmed phone matches, and a location is set |
| PinSource.ContactMessagesExclusive | src/pages/modals/PinSourcePanel.jsx:81-85 | the contact number has an error exactly when its trimmed text fails the pattern; "required" exactly when it is blank; the format message exactly when it is not blank and fails |
| PinSource.CollectErrors | src/pages/modals/PinSourcePanel.jsx:71-90 | the error object built by the successive field checks is the per-key specification, and it is empty exactly when the form is ready |
| PinSource.PinSourcePanel.constructor | src/pages/modals/PinSourcePanel.jsx:15-30 | the panel starts with the initial form (empty strings, no category, no coordinates), no errors, no search text or results and no spinners |
| PinSource.PinSourcePanel.OnOpenEffect | src/pages/modals/PinSourcePanel.jsx:33-40 | opening resets the form to its initial state and empties the errors, search text and results; closing changes nothing |
| PinSource.PinSourcePanel.OnLocationSearchEffect | src/pages/modals/PinSourcePanel.jsx:43-53 | a trimmed search shorter than 3 UTF-16 code units clears the results and schedules no fetch; a longer one schedules a fetch |
| PinSource.PinSourcePanel.OnLocationsFetched | src/pages/modals/PinSourcePanel.jsx:55-67 | a successful lookup replaces the results, a failed one keeps them, and the spinner stops either way |
| PinSource.PinSourcePanel.ValidateForm | src/pages/modals/PinSourcePanel.jsx:70-93 | stores the validator's error object and returns true exactly when the form is ready |
| PinSource.PinSourcePanel.HandleChange | src/pages/modals/PinSourcePanel.jsx:95-102 | only the named field changes, and only that field's error is cleared |
| PinSource.PinSourcePanel.HandleCategoryToggle | src/pages/modals/PinSourcePanel.jsx:104-116 | the category list is toggled, nothing else in the form changes, and only the category error is cleared |
| PinSource.PinSourcePanel.HandleLocationSearchChange | src/pages/modals/PinSourcePanel.jsx:118-124 | the location text becomes exactly the typed text, the coordinates are dropped, and the location error is cleared |
| PinSource.PinSourcePanel.HandleLocationSelect | src/pages/modals/PinSourcePanel.jsx:126-139 | the location text becomes the result's display name and the coordinates its position; the result list is emptied, the location error is cleared, and the position is previewed |
| PinSource.PinSourcePanel.HandleUseCurrentLocation | src/pages/modals/PinSourcePanel.jsx:141-143 | a position is requested exactly when geolocation is available, and the spinner stays on exactly then; the errors of the click are returned for the callback |
| PinSource.PinSourcePanel.OnPositionSuccess | src/pages/modals/PinSourcePanel.jsx:145-158 | the coordinates and the label `Current Location (approx.)` are set, the spinner stops, the location error is cleared only if the errors of the click had one, and the position is previewed |
| PinSource.PinSourcePanel.OnPositionError | src/pages/modals/PinSourcePanel.jsx:159-162 | only the spinner stops; the form is left as it was (there is no fallback) |
| PinSource.PinSourcePanel.HandleSubmit | src/pages/modals/PinSourcePanel.jsx:170-178 | the form is handed to the submit handler exactly when the validator passes |
| PinSource.EmptyFormLacksLocation | src/pages/modals/PinSourcePanel.jsx:86-88 | validating the initial form reports the missing location |
| PinSource.SubmitWhileLocating | src/pages/modals/PinSourcePanel.jsx:141-158 | a submit while the position is pending leaves the location message on screen although the form then has a location |
| Hotlines.CategoryOptions | src/pages/EmergencyContactsPage.jsx:10 | the options are "All" followed by every category name, in data order |
| Hotlines.NarrowAll | src/pages/EmergencyContactsPage.jsx:18-29 | each category is replaced by itself with only the contacts whose name matches |
| Hotlines.NarrowMatches | src/pages/EmergencyContactsPage.jsx:18-29 | narrowing a category keeps its name and shows only contacts whose name contains the term |
| Hotlines.PipelineMatches | src/pages/EmergencyContactsPage.jsx:13-30 | the select, narrow and drop-empty pipeline shows only selected, non-empty categories whose contacts all match the term |
| Hotlines.FilteredCategories | src/pages/EmergencyContactsPage.jsx:13-30 | every shown category is selected and non-empty, and every contact it shows has a lower-cased name containing the lower-cased term |
| Hotlines.SelectedMembers | src/pages/EmergencyContactsPage.jsx:14-17 | a category passes the first filter exactly when the selection is "All" or is its name |
| Hotlines.ResultsComplete | src/pages/EmergencyContactsPage.jsx:13-30 | a category is shown exactly when it is a selected input category narrowed to its matching contacts and at least one contact matched |
| Hotlines.NarrowedFromInput | src/pages/EmergencyContactsPage.jsx:13-29 | every narrowed category comes from a selected input category |
| Hotlines.InputNarrowed | src/pages/EmergencyContactsPage.jsx:13-29 | every selected input category is narrowed |
| Hotlines.NoResults | src/pages/EmergencyContactsPage.jsx:33 | "No contacts found" shows exactly when no selected category has a contact whose name matches the term |
| Hotlines.ResultsEmbed | src/pages/EmergencyContactsPage.jsx:13-30 | the shown categories are a subsequence of the input, each with its own name and a subsequence of its own contacts, which are unchanged |
| Hotlines.NarrowAllConcat | src/pages/EmergencyContactsPage.jsx:18-29 | narrowing distributes over concatenation |
| Hotlines.EmbedsSkip | src/pages/EmergencyContactsPage.jsx:13-30 | dropping an input category keeps an embedding |
| Hotlines.AllWithEmptyTerm | src/pages/EmergencyContactsPage.jsx:13-30 | with "All" and an empty search the result is exactly the input categories that have contacts, unchanged and in order |
| Hotlines.BeforeFirstSlash | src/pages/EmergencyContactsPage.jsx:118 | `split('/')[0]` is a prefix without `/`, followed in the input by `/` when it is shorter than the input |
| Hotlines.TelTarget | src/pages/EmergencyContactsPage.jsx:118 | the target is all digits and `+`; it is a subsequence of the number; it keeps every dialable character before the first `/`; without a `/` it is the number's dialable characters |
| Hotlines.TelTargetFirstAlternative | src/pages/EmergencyContactsPage.jsx:118 | only the first of several `/`-separated numbers is dialled |
| Hotlines.TelTargetDropsSeparator | src/pages/EmergencyContactsPage.jsx:118 | a dash, space or parenthesis before the first `/` is dropped and the digits around it are joined |
| Hotlines.BeforeSlashAtSlash | src/pages/EmergencyContactsPage.jsx:118 | a number that starts with `/` has an empty first alternative |
| Hotlines.BeforeFirstOfJoin | src/pages/EmergencyContactsPage.jsx:118 | the first alternative of a string that starts with a `/`-free part extends that part |

## Left out

- Firestore data access (`src/services/*.js`) is not modelled. It is a set of thin calls into the hosted database SDK, with no logic of its own.
- The map page, routing and seed data are not part of this model: `src/pages/home.jsx`, `src/App.jsx` and `src/data/dataset.js`. They are DOM and third-party plumbing, router configuration, and static data with a wall-clock timestamp. The static directory data in `src/data/emergencyContacts.js` is not used either.
- Network requests (the Nominatim forward and reverse lookups), the 500 ms debounce, `setTimeout`/`clearTimeout` and `navigator.geolocation` are not modelled. Their outcomes become method parameters, and each callback becomes a method called when the event arrives. Cancelling a pending debounce when the search changes again is not modelled.
- `parseFloat` and `toFixed(4)` are not modelled, because they are floating point. Coordinates are exact reals. The four-decimal texts of a detected position are parameters of `AskHelp.LocationRequest.OnSuccess`.
- Text.ToLower: JavaScript `toLowerCase` maps the whole of Unicode, but the model lower-cases only ASCII letters.
- Rendering is not modelled: JSX, CSS classes, `FormError`, and the `console.error`/`console.warn` logging. This includes `handleSubmit` logging the error object from before validation ran.
- The map's heart and flag actions, the sidebar's city/kind filter and the timestamp sort are not modelled. No file of the modelled core contains them.
- Storing `null` under an error key and never setting the key are both `None`. The panels read the error object only through truthiness and `Object.keys` of a freshly built object, so the difference is not observable.
- An answer from the forward lookup is taken as a list of places; a malformed JSON body counts as a failed request.
