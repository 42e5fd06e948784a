# Property-listing browser: saved list, listing filter, contact form

A Dafny model of the sequential logic inside the Next.js property-listing
browser. The React components are lifted out of the UI; each becomes a state
holder whose operations run as plain sequential steps:

- **Saved-properties store** (`app/contexts/SavedPropertiesContext.tsx`):
  an insertion-ordered list of listings, deduplicated by `Id`, mirrored into
  one browser-storage slot. Modules `SavedProperties` (pure updaters `Add`,
  `Remove`, `HasId`, the slot and its `Load` step, and the class
  `SavedPropertiesStore`) and `Sequences` (the order-preserving `Filter` that
  `Array.prototype.filter` stands for, and the subsequence relation).
- **Listing browser** (`app/page.tsx`): the filter predicate, the filtered list,
  the slider's price bounds, and the page state as the class
  `ListingBrowser.HomePage`.
- **Contact form** (`app/components/ContactAgentForm.tsx`): ECMAScript `trim`,
  phone-digit stripping, the email pattern
  `^[A-Z0-9._%+-]+@[A-Z0-9.-]+\.[A-Z]{2,}$` (case-insensitive) as an explicit
  character-class predicate with a decision procedure proved equivalent to it,
  the validator, and the form state machine as the class
  `ContactForm.ContactAgentForm`.
- **Save toggle** (`app/components/SavePropertyButton.tsx`): the class
  `SaveButton.SavePropertyButton`, whose toggle calls the store's add or remove.

Listings (`Listings.Listing`) carry their integer fields `Id`, `Bedrooms`,
`Bathrooms`, `Parking` and `Sale Price` exactly; title and location are carried
along uninterpreted, and the display-only fields are omitted (see "## Left out").

React effects are explicit steps. Mounting the store provider
(`SavedProperties.Mount`) builds the initial empty state, runs the load effect
(`LoadEffect`) and then the persist effect (`Persist`), in the order the source
declares them. `addProperty` of an id that is already present returns the same
array, so React keeps the old state and the persist effect does not run: the
model leaves the slot untouched in that case. `removeProperty` always builds a
new array and so always persists. A pending submit timer is a counter:
`HandleSubmit` schedules one, `TimerFires` is the timer's callback.

Behaviour of the code that the model keeps:

- `resetFilters` does not re-run the filter; it shows the full list
  (app/page.tsx:99). `ResetAgreesWithRefilter` proves that re-filtering with the
  reset criteria would give the same list exactly when no listing has a zero
  bedroom, bathroom or parking count; `ResetDiffersOnZeroParking` shows a
  listing on which the two differ.
- The load effect removes a corrupt stored payload from storage at once
  (app/contexts/SavedPropertiesContext.tsx:36-38), and the persist effect that
  runs on mount then writes the empty list.
- The submission status takes the values idle, success and error
  (app/components/ContactAgentForm.tsx:31). While the success timer is pending
  the status keeps its previous value.
- The phone check compares the length of the stored value, which only ever holds
  digits (`ContactAgentForm.Valid`); `HandleSubmit` states the resulting
  phone rule for a digit-only value.

## Model

| member | source | states |
|---|---|---|
| `Sequences.Filter` | app/page.tsx:75-83 | the result is no longer than the input, every kept element passes the test, and every kept element comes from the input |
| `Sequences.FilterIsSubsequence` | app/page.tsx:75-83 | the filtered list is a subsequence of the input in its original order |
| `Sequences.FilterComplete` | app/page.tsx:75-83 | every input element that passes the test is in the result |
| `Sequences.FilterKeepsAll` | app/page.tsx:75-83 | filtering returns the input unchanged exactly when every element passes |
| `Sequences.FilterDropsAll` | app/page.tsx:75-83 | filtering returns the empty list exactly when no element passes |
| `Sequences.FilterCount` | app/page.tsx:75-83 | the result holds every passing element exactly as many times as the input does, and no failing element |
| `Sequences.FilterAppend` | app/contexts/SavedPropertiesContext.tsx:61 | filtering distributes over concatenation |
| `SavedProperties.HasId` | app/contexts/SavedPropertiesContext.tsx:52 | `some(p => p.Id === id)` is true iff some entry has that id |
| `SavedProperties.Add` | app/contexts/SavedPropertiesContext.tsx:50-56 | after the updater the listing's id is present, the old entries keep their places, and the list grows by at most one; `AddExistingIsNoOp` and `AddFreshAppends` give the two cases |
| `SavedProperties.Remove` | app/contexts/SavedPropertiesContext.tsx:61 | the updater never grows the list and leaves no entry with the id; `RemoveExactly` gives the rest |
| `SavedProperties.AddExistingIsNoOp` | app/contexts/SavedPropertiesContext.tsx:52-54 | adding a listing whose id is present returns the list unchanged, same length |
| `SavedProperties.AddFreshAppends` | app/contexts/SavedPropertiesContext.tsx:55 | adding a new id appends it at the end and keeps all earlier entries in order |
| `SavedProperties.AddPreservesUniqueIds` | app/contexts/SavedPropertiesContext.tsx:49-56 | add keeps the no-duplicate-id invariant |
| `SavedProperties.AddThenSaved` | app/contexts/SavedPropertiesContext.tsx:49-56 | after add, the listing's id is saved |
| `SavedProperties.AddKeepsOthers` | app/contexts/SavedPropertiesContext.tsx:49-56 | add never changes the entries with other ids, nor their order |
| `SavedProperties.RemoveExactly` | app/contexts/SavedPropertiesContext.tsx:61 | remove leaves no entry with the id, keeps every entry with another id as many times as it occurred, and keeps their order |
| `SavedProperties.RemoveAbsentIsNoOp` | app/contexts/SavedPropertiesContext.tsx:61 | removing an id that is absent returns the list unchanged |
| `SavedProperties.RemoveThenNotSaved` | app/contexts/SavedPropertiesContext.tsx:61 | after remove, the id is not saved |
| `SavedProperties.RemovePreservesUniqueIds` | app/contexts/SavedPropertiesContext.tsx:61 | remove keeps the no-duplicate-id invariant |
| `SavedProperties.RemoveIdempotent` | app/contexts/SavedPropertiesContext.tsx:61 | removing the same id twice is removing it once |
| `SavedProperties.AddThenRemoveRestores` | app/contexts/SavedPropertiesContext.tsx:49-62 | add of a fresh id followed by remove of that id restores the list exactly |
| `SavedProperties.Load` | app/contexts/SavedPropertiesContext.tsx:31-41 | an absent or empty slot gives the empty list; a corrupt slot gives the empty list and is removed; a well-formed slot gives its list and stays |
| `SavedProperties.PersistThenLoadRoundTrip` | app/contexts/SavedPropertiesContext.tsx:44-46 | reloading the slot the persist effect wrote gives back the same list |
| `SavedProperties.SavedPropertiesStore.constructor` | app/contexts/SavedPropertiesContext.tsx:28 | the state starts as the empty list; storage holds whatever it held |
| `SavedProperties.SavedPropertiesStore.LoadEffect` | app/contexts/SavedPropertiesContext.tsx:31-41 | the state becomes the parsed list only when the slot parses; a corrupt slot is removed |
| `SavedProperties.SavedPropertiesStore.Persist` | app/contexts/SavedPropertiesContext.tsx:44-46 | the slot holds the serialisation of the whole current list; the list is unchanged |
| `SavedProperties.SavedPropertiesStore.AddProperty` | app/contexts/SavedPropertiesContext.tsx:49-57 | the list becomes `Add` of the old list; the slot is rewritten only when the list changed; sync and unique ids are preserved |
| `SavedProperties.SavedPropertiesStore.RemoveProperty` | app/contexts/SavedPropertiesContext.tsx:60-62 | the list becomes `Remove` of the old list, it is persisted, unique ids are preserved |
| `SavedProperties.SavedPropertiesStore.IsPropertySaved` | app/contexts/SavedPropertiesContext.tsx:65-67 | true iff some saved entry has the id |
| `SavedProperties.Mount` | app/contexts/SavedPropertiesContext.tsx:27-46 | after mount the state is the loaded list and the slot is in sync with it; an absent, empty or corrupt slot ends up holding the empty list |
| `ListingBrowser.Matches` | app/page.tsx:76-82 | the five comparisons of the filter test; its meaning is stated by `FilterListings` and `FilterListingsComplete` |
| `ListingBrowser.FilterListings` | app/page.tsx:75-83 | every kept listing has at least the minimum bedrooms, bathrooms and parking and a price in the inclusive range |
| `ListingBrowser.FilterListingsComplete` | app/page.tsx:75-83 | every listing meeting all four conditions is kept, as many times as it occurs, and no other listing is |
| `ListingBrowser.FilterListingsIsSubsequence` | app/page.tsx:75-85 | the filtered list is a subsequence of the listings in original order |
| `ListingBrowser.FilterListingsIdempotent` | app/page.tsx:75-83 | filtering the filtered list with the same criteria gives it again |
| `ListingBrowser.MinPrice` | app/page.tsx:56-57 | for non-empty data, a price that occurs in the data and is at most every price |
| `ListingBrowser.MaxPrice` | app/page.tsx:56-58 | for non-empty data, a price that occurs in the data and is at least every price |
| `ListingBrowser.ResetCriteria` | app/page.tsx:94-98 | the reset criteria are 1, 1, 1 and the range [priceMin, priceMax] |
| `ListingBrowser.ResetAgreesWithRefilter` | app/page.tsx:94-99 | on loaded data, filtering with the reset criteria returns the full list exactly when no listing has a zero amenity count |
| `ListingBrowser.ResetDiffersOnZeroParking` | app/page.tsx:94-99 | a listing with no parking is filtered out by the reset criteria although reset shows it |
| `ListingBrowser.HomePage.CurrentCriteria` | app/page.tsx:29-32 | the criteria are the bedrooms, bathrooms, parking and price-range state |
| `ListingBrowser.HomePage.constructor` | app/page.tsx:23-36 | the initial state values, including the default price range [100000, 800000] and bounds 0 and 1000000 |
| `ListingBrowser.HomePage.FetchSucceeded` | app/page.tsx:51-66 | listings and the shown list both become the data; priceMin and priceMax are its minimum and maximum price, so every price lies between them; the price range is set to them; loading ends |
| `ListingBrowser.HomePage.SetBedrooms` | app/page.tsx:133 | the bedrooms minimum becomes the selected value |
| `ListingBrowser.HomePage.SetBathrooms` | app/page.tsx:149 | the bathrooms minimum becomes the selected value |
| `ListingBrowser.HomePage.SetParking` | app/page.tsx:165 | the parking minimum becomes the selected value |
| `ListingBrowser.HomePage.HandlePriceChange` | app/page.tsx:89-91 | the price range becomes the slider's pair |
| `ListingBrowser.HomePage.ApplyFilters` | app/page.tsx:74-86 | the shown list becomes the listings filtered by the current criteria, a subsequence of them; only the shown list changes |
| `ListingBrowser.HomePage.ResetFilters` | app/page.tsx:94-100 | the criteria become 1, 1, 1, [priceMin, priceMax] and the shown list becomes the full list, unfiltered |
| `ContactForm.LeadingWhitespace` | app/components/ContactAgentForm.tsx:74 | the length of the whitespace run `trim` drops at the front: every character before it is whitespace and the one at it is not |
| `ContactForm.TrailingStart` | app/components/ContactAgentForm.tsx:74 | where the whitespace run `trim` drops at the back begins: every character from it on is whitespace and the one before it is not |
| `ContactForm.Trim` | app/components/ContactAgentForm.tsx:74 | the trimmed value is no longer than the value and neither starts nor ends with whitespace; `TrimEmptyIffBlank` says when it is empty |
| `ContactForm.TrimEmptyIffBlank` | app/components/ContactAgentForm.tsx:74 | a value trims to the empty string exactly when it is all whitespace |
| `ContactForm.DigitsOnly` | app/components/ContactAgentForm.tsx:45 | the stripped phone value holds only digits |
| `ContactForm.DigitsOnlyKeepsDigitsInOrder` | app/components/ContactAgentForm.tsx:44-49 | the stripped value is a subsequence of the typed value holding each digit exactly as often as it was typed and no other character; a digit-only value is unchanged |
| `ContactForm.DigitsOnlyDropsSeparators` | app/components/ContactAgentForm.tsx:44-49 | non-digit runs typed between two digit groups vanish and the groups are kept, in order |
| `ContactForm.DigitsOnlyExample` | app/components/ContactAgentForm.tsx:45 | "abc123de456" is stored as "123456" |
| `ContactForm.MatchesEmailPattern` | app/components/ContactAgentForm.tsx:83 | the pattern as a predicate: a non-empty run of local characters, `@`, a non-empty run of domain characters, `.`, and two or more letters; `IsValidEmail` decides it and `EmailFromParts` builds members |
| `ContactForm.EmailSplitIsUnique` | app/components/ContactAgentForm.tsx:83 | a matching address has exactly one `@`, and its split point is the last `.` |
| `ContactForm.EmailDecision` | app/components/ContactAgentForm.tsx:83 | checking the split at the first `@` and the last `.` decides the pattern |
| `ContactForm.IsValidEmail` | app/components/ContactAgentForm.tsx:83 | true iff the address matches the pattern |
| `ContactForm.EmailFromParts` | app/components/ContactAgentForm.tsx:83 | a non-empty local part, `@`, a non-empty domain prefix, `.` and at least two letters always match |
| `ContactForm.MatchedEmailNotBlank` | app/components/ContactAgentForm.tsx:80-86 | a matching address is never blank |
| `ContactForm.EmailExampleAccepted` | app/components/ContactAgentForm.tsx:83 | "jane@example.com" matches |
| `ContactForm.EmailExampleShortTld` | app/components/ContactAgentForm.tsx:83 | "jane@example.c" does not match |
| `ContactForm.EmailExampleTwoAts` | app/components/ContactAgentForm.tsx:83 | "jane@@example.com" does not match |
| `ContactForm.FullNameError` | app/components/ContactAgentForm.tsx:73-77 | the name slot's message; `ValidationAcceptsIff` says when it is empty |
| `ContactForm.EmailError` | app/components/ContactAgentForm.tsx:79-86 | the email slot's message; `EmailErrorMeaning` says which message appears when |
| `ContactForm.PhoneError` | app/components/ContactAgentForm.tsx:88-95 | the phone slot's message; `PhoneErrorOnDigits` says which message appears for a digit-only value |
| `ContactForm.CommentsError` | app/components/ContactAgentForm.tsx:97-101 | the comments slot's message; `ValidationAcceptsIff` says when it is empty |
| `ContactForm.ValidationErrors` | app/components/ContactAgentForm.tsx:64-101 | the `newErrors` record; `ValidationAcceptsIff` says when all of it is empty and `EmptyFormFourErrors` what an untouched form gets |
| `ContactForm.EmailErrorMeaning` | app/components/ContactAgentForm.tsx:80-86 | the email slot says 'Email is required' iff blank, 'Invalid email address' iff not blank and not matching, and is empty iff the address matches |
| `ContactForm.PhoneErrorOnDigits` | app/components/ContactAgentForm.tsx:89-95 | for a digit-only phone value: empty gives 'Phone number is required', otherwise it passes iff it has at least 10 digits |
| `ContactForm.ValidationAcceptsIff` | app/components/ContactAgentForm.tsx:64-105 | all four error slots are empty iff the name is not blank, the email matches, the phone is not blank and has length at least 10, and the comments are not blank |
| `ContactForm.AcceptedWhenRulesMet` | app/components/ContactAgentForm.tsx:64-105 | a form whose fields each meet their rule passes validation |
| `ContactForm.EmptyFormFourErrors` | app/components/ContactAgentForm.tsx:64-101 | an untouched form gets all four 'required' messages |
| `ContactForm.FilledFormAccepted` | app/components/ContactAgentForm.tsx:64-105 | Jane Doe, jane@example.com, 5551234567, Interested passes validation |
| `ContactForm.ContactAgentForm.constructor` | app/components/ContactAgentForm.tsx:15-31 | all fields and error slots start empty, the status is idle, no timer is pending |
| `ContactForm.ContactAgentForm.HandleChange` | app/components/ContactAgentForm.tsx:34-61 | only the edited field's error is cleared, only the edited field's value changes (to its digits for the phone), the status becomes idle, and the phone stays digit-only |
| `ContactForm.ContactAgentForm.ValidateForm` | app/components/ContactAgentForm.tsx:64-105 | every error slot is overwritten with the field's message, and the result is true iff all four slots are empty |
| `ContactForm.ContactAgentForm.HandleSubmit` | app/components/ContactAgentForm.tsx:108-121 | a failing validation sets the status to error at once; a passing one leaves the status as it was and schedules the success timer; field values are not reset; with the digit-only phone the form keeps, an empty phone gets 'Phone number is required' and a non-empty one passes iff it has at least 10 digits |
| `ContactForm.ContactAgentForm.TimerFires` | app/components/ContactAgentForm.tsx:113-117 | the timer callback sets the status to success |
| `SaveButton.SavePropertyButton.constructor` | app/components/SavePropertyButton.tsx:15-19 | the snackbar starts closed with an empty message |
| `SaveButton.SavePropertyButton.HandleSaveToggle` | app/components/SavePropertyButton.tsx:21-35 | a saved listing is removed with 'Property removed from saved properties', an unsaved one is appended with 'Property saved successfully'; its saved status flips, entries with other ids are unchanged, storage stays in sync, and the snackbar opens |

## Left out

- JSX rendering, MUI components, routing, the header, the not-found page, the
  skeletons, the property card and the saved-properties modal (its remove
  button only calls the store's remove).
- The fetch of `/data/listings.json`, its 800 ms delay and its failure path
  (`!response.ok` or a rejected promise) with its error message: network and
  timer I/O. The model starts from the data a successful fetch returned.
- ListingBrowser.HomePage.FetchSucceeded: requires non-empty data, because
  `Math.min`/`Math.max` of no prices yield the floating-point infinities.
- Prices are integers; `toLocaleString` formatting and the slider's step and
  bounds are not modelled.
- The 500 ms delay of the simulated submission is an abstract timer step
  (`TimerFires`); real time is not modelled.
- `localStorage`, `JSON.stringify` and `JSON.parse`: the slot holds an
  already-parsed list, the empty string, nothing, or a corrupt marker;
  serialisation is taken to round-trip.
- React effect scheduling and batching, the render-time snapshot of state in
  the handlers, and the stale intermediate write of the empty list made by the
  persist effect on mount before the loaded list is rendered: operations are
  sequential steps.
- The listing's display-only fields (`Sqft`, `ThumbnailURL`, `PictureURL`,
  `Description`, `DateListed`, `YearBuilt`, read for rendering in
  app/components/PropertyCard.tsx:40,76 and the detail page): no modelled
  operation reads them, so `Listings.Listing` omits them.
- `useSavedProperties` throwing outside its provider: framework wiring.
- `handleViewSaved`, `handleCloseModal` and `handleCloseSnackbar`: they only
  toggle UI flags.
- ContactForm.LeadingWhitespace: whitespace is the set of code points ECMAScript
  names; characters are code points, while JavaScript strings are UTF-16, so
  `phone.length` is modelled as the number of code points (the phone field holds
  ASCII digits only).
- SavedProperties.AddPreservesUniqueIds: the stored list is assumed free of
  duplicate ids; the source never checks what it parses.
