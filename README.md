# Real-estate admin front end: client-side rules

This project models the logic that the admin front end of a real-estate
platform runs in the browser. It lifts that logic out of the React
components into Dafny and proves properties of it. Every business rule of
the backend sits behind HTTP calls and is outside the model. What is modelled:

- **Type-scope editor** (`ConfigView`). This is the admin's working copy of one
  property type's ordered attribute list.
  - Ticking an attribute either filters out every occurrence of its id or
    appends it at the end.
  - The ids are then re-resolved against the global catalogue, so unknown
    ids are dropped.
  - "Save" posts the ids in working order.
  - The working copy is cleared on a successful save, on deletion of the
    configured type and on a tab switch. It takes the new name and
    description after an edit of the type's metadata.
  - A type card shows at most eight chips.
- **Attribute form** (`AttributeModal`). It is a small state machine over
  name, data type, filterable flag, option list, pending option and error.
  - Options are trimmed, refused when already present, appended, and
    removed by `splice` index. `splice`'s negative and out-of-range indices
    are modelled too.
  - Submission requires a name, and at least one option for the enum type.
  - The payload carries the options only for the enum type.
  - The data-type menu locks as soon as an edit moves away from the stored
    type. After that the admin cannot use it to go back
    (`AttributeModal.ChangedTypeLocks`).
- **Type form** (`TypeModal`): name required, both fields trimmed.
- **User list** (`UsersView`).
  - Response normalisation: the legacy bare array, the paginated object, or
    anything else.
  - Previous/next clamps, and the "showing a to b" range.
  - The page is reset on a new search or a role change.
  - The status badge and the avatar initial.
  - The guards on suspending and reactivating an account.
  - Next clamps rather than steps: on a page past the last one it moves
    back (`UsersView.NextFromBeyondGoesBack`).
- **Visit board** (`VisitsView`).
  - The status-to-actions table and the filter parameter and labels.
  - Reject needs a reason. Cancel is a reject with a fixed reason.
- **Alert list** (`AlertsView`).
  - The status filter and the archived/active action table.
  - The colour strip and the badges.
  - The criteria chips: excluded keys, falsy values and `Indifférent` are
    skipped, and labels are formatted by `_` → space and
    `replace(/\b\w/g, toUpperCase)`.
- **Property catalogue** (`PropertiesView`).
  - The conjunctive search/type/status filter, the status labels and the
    card's fallback chains.
  - The search reads the `attributes` title, or the status when there is
    none. The card shows the root title first. So the root title is never
    searched (`PropertiesView.RootTitleNotSearched`): a listing titled only
    at the root is found by its status or location, not by its title
    (`PropertiesView.SearchSkipsRootTitle`).
- **Property details modal** (`PropertyDetailsModal`).
  - Nothing is rendered while it is closed.
  - Root fields are preferred over `attributes` entries.
  - The characteristics skip the nine reserved keys and falsy values.
  - The gallery is shown only when there is more than one image, and the
    validate action only when the property is not validated.

`Common` holds the pieces of JavaScript semantics the views share:
- truthiness of JSON values and `||`;
- `String.prototype.trim` with the ECMAScript space set;
- ASCII case mapping;
- `includes`;
- single-character global `replace`;
- `Array.prototype.filter` and its laws;
- `String(n)` for integers and its injectivity;
- the "server message, else fixed text" error choice.

`Catalog` holds the records the configuration screens pass around, with the
five data types the attribute form offers.

Outcomes of awaited HTTP calls, `window.confirm` answers and `window.prompt`
answers are parameters of the operations. The calls themselves are returned
as request values. State that the components keep in `useState` becomes
fields of a class: `ConfigView.ConfigState`, `AttributeModal.AttributeForm`,
`TypeModal.TypeForm` and `UsersView.UserList`. The views that only compute
from their inputs are functions.

## Model

| member | source | states |
|---|---|---|
| `Common.Or` | components/Views/Properties.tsx:141 | `a \|\| b` is `a` when `a` is truthy, else `b`; the result is truthy iff either is |
| `Common.Trim` | components/Modals/TypeModal.tsx:33 | the trimmed string has no space at either end, is no longer than the input, and is empty exactly when the input is all spaces |
| `Common.TrimIsInfix` | components/Modals/TypeModal.tsx:42-43 | the trimmed string is an infix of the input with only spaces cut on both sides |
| `Common.TrimIdempotent` | components/Modals/AttributeModal.tsx:43-48 | trimming a trimmed value changes nothing |
| `Common.LowerChar` | components/Views/Properties.tsx:37 | lower-casing maps `A`–`Z` to `a`–`z` and leaves every other character alone |
| `Common.UpperChar` | components/Views/Alerts.tsx:105 | upper-casing maps `a`–`z` to `A`–`Z` and leaves every other character alone |
| `Common.Lower` | components/Views/Properties.tsx:36-38 | `toLowerCase` keeps the length and lower-cases each character |
| `Common.LowerConcat` | components/Views/Properties.tsx:36 | lower-casing a concatenation lower-cases each part |
| `Common.IncludesEmpty` | components/Views/Properties.tsx:37-38 | every string includes the empty string |
| `Common.ReplaceChar` | components/Modals/PropertyDetailsModal.tsx:119 | `replace(/x/g, y)` keeps the length, replaces each `x` by `y` and keeps the rest; no `x` is left |
| `Common.Filter` | components/Views/Config.tsx:105 | `filter` yields at most the input's elements, each in the input and kept by the predicate |
| `Common.FilterMembership` | components/Views/Config.tsx:105 | an element is in the filtered list iff it is in the list and satisfies the predicate |
| `Common.FilterConcat` | components/Views/Alerts.tsx:92 | filtering distributes over concatenation, so relative order is kept |
| `Common.FilterCount` | components/Views/Config.tsx:105 | kept elements keep their multiplicity, dropped ones have none |
| `Common.FilterKeepsAll` | components/Views/Alerts.tsx:92 | a predicate true on every element leaves the list unchanged |
| `Common.FilterDistinct` | components/Views/Config.tsx:105 | filtering a list without repetitions yields one without repetitions |
| `Common.ServerMessage` | components/Modals/TypeModal.tsx:51 | the body's `message` is used exactly when a response carries a non-empty one |
| `Common.ErrorText` | components/Modals/TypeModal.tsx:51-55 | the error shown is the server's message when there is one, the fallback otherwise, and never empty with a non-empty fallback |
| `Common.FormatPrice` | components/Views/Properties.tsx:62-65 | a falsy price shows 'N/A'; any other price goes to the formatter unchanged |
| `Common.NatToString` | components/Views/Properties.tsx:46 | `String(n)` is a non-empty string of decimal digits whose decimal value is `n`, one digit exactly below 10, without leading zero |
| `Common.NatToStringInjective` | components/Views/Properties.tsx:46 | two naturals with the same decimal string are equal |
| `Common.IntToString` | components/Views/Alerts.tsx:183 | `String(i)` puts a minus sign before the digits of a negative number |
| `Common.IntToStringInjective` | components/Views/Properties.tsx:46 | two integers with the same printed form are equal |
| `Catalog.Code` | components/Modals/AttributeModal.tsx:145-149 | each of the form's five data types has a non-empty stored string |
| `Catalog.ParseDataType` | components/Modals/AttributeModal.tsx:145-149 | a stored string is read back only as the data type that prints as it |
| `Catalog.ParseCode` | components/Modals/AttributeModal.tsx:145-149 | every data type survives storing and reading back |
| `Catalog.MenuOffersEveryType` | components/Modals/AttributeModal.tsx:145-149 | the menu's five option values are distinct, each reads back as the data type that prints as it, and every data type has its option |
| `ConfigView.Ids` | components/Views/Config.tsx:103 | the id list has one id per attribute, in order |
| `ConfigView.ToggleMembership` | components/Views/Config.tsx:104-106 | as a set, toggling `x` is symmetric difference with `{x}` |
| `ConfigView.TogglePresentRemovesAll` | components/Views/Config.tsx:104-105 | toggling a present id removes every occurrence and keeps every other id with its multiplicity |
| `ConfigView.TogglePresentKeepsOrder` | components/Views/Config.tsx:104-105 | removing an id leaves the ids before and after it in their order |
| `ConfigView.ToggleAbsentTwiceRestores` | components/Views/Config.tsx:104-106 | an absent id is appended after all others, and toggling it again restores the list |
| `ConfigView.TogglePresentTwiceMovesToEnd` | components/Views/Config.tsx:104-106 | toggling a present id twice moves it to the end |
| `ConfigView.ToggleKeepsDistinct` | components/Views/Config.tsx:104-106 | distinct ids stay distinct after a toggle |
| `ConfigView.Find` | components/Views/Config.tsx:107 | `find` succeeds iff the catalogue has the id, and returns a catalogue record with that id |
| `ConfigView.FindUnique` | components/Views/Config.tsx:107 | with unique catalogue ids, an id resolves to its own record |
| `ConfigView.Resolve` | components/Views/Config.tsx:107 | resolution yields catalogue records only, and keeps exactly the ids the catalogue knows |
| `ConfigView.ResolveConcat` | components/Views/Config.tsx:107 | resolution keeps the order of the ids |
| `ConfigView.ResolveKnown` | components/Views/Config.tsx:107 | ids all known to the catalogue all survive, in order |
| `ConfigView.ResolveKeepsDistinct` | components/Views/Config.tsx:107 | resolution introduces no repetition |
| `ConfigView.ToggleAttribute` | components/Views/Config.tsx:101-108 | a toggle keeps the type's id, name and description; the new list holds catalogue attributes only, whose ids are the toggled ids the catalogue knows |
| `ConfigView.ToggleAttributeIds` | components/Views/Config.tsx:103-107 | with a catalogue that knows every id involved, the new id list is exactly the toggled list |
| `ConfigView.ToggleAttributeKeepsDistinct` | components/Views/Config.tsx:103-107 | distinct working ids stay distinct through toggle and resolution |
| `ConfigView.ToggleAttributeTwiceRestores` | components/Views/Config.tsx:103-107 | ticking a catalogue attribute on and off again restores the working id list |
| `ConfigView.Merge` | components/Views/Config.tsx:81 | merging edited metadata replaces name and description and keeps id and attribute list |
| `ConfigView.AttributeRequestFor` | components/Views/Config.tsx:123-133 | an edit updates the edited record's id, a creation creates; the payload is passed on unchanged |
| `ConfigView.Chips` | components/Views/Config.tsx:243-255 | a card shows the whole list when it has at most 8 attributes, else exactly the first 8 and a "+n" chip with n = length − 8; the "no attribute" note exactly for an empty list |
| `ConfigView.DeleteAttributeErrorText` | components/Views/Config.tsx:142-147 | a 409 shows the server's reason or the "in use" text; any other failure the generic text |
| `ConfigView.ConfigState.constructor` | components/Views/Config.tsx:45-49 | the view starts on the types tab, loading, with empty lists and no working copy |
| `ConfigView.ConfigState.Fetched` | components/Views/Config.tsx:57-71 | a successful fetch replaces both lists, a failed one keeps them; loading ends; the working copy is untouched |
| `ConfigView.ConfigState.SelectType` | components/Views/Config.tsx:219 | clicking a card makes that type the working copy |
| `ConfigView.ConfigState.Toggle` | components/Views/Config.tsx:101-108 | without a working copy nothing happens; otherwise the working copy becomes its toggle and holds catalogue attributes only |
| `ConfigView.ConfigState.SaveScopes` | components/Views/Config.tsx:110-118 | save sends the working ids in working order for the working type, and clears the working copy only after success |
| `ConfigView.ConfigState.SaveType` | components/Views/Config.tsx:76-88 | create or update by edit mode; a successful update of the configured type merges the new fields into the working copy, nothing else changes it |
| `ConfigView.ConfigState.DeleteType` | components/Views/Config.tsx:90-99 | nothing without confirmation; a successful delete of the configured type clears the working copy |
| `ConfigView.ConfigState.DeleteAttribute` | components/Views/Config.tsx:136-149 | nothing without confirmation; a failure gives the 409-aware toast |
| `ConfigView.ConfigState.SwitchTab` | components/Views/Config.tsx:187 | switching tabs sets the tab and clears the working copy |
| `ConfigView.ConfigState.ClosePanel` | components/Views/Config.tsx:367 | closing the panel clears the working copy |
| `TypeModal.Validate` | components/Modals/TypeModal.tsx:33-36 | submit is refused, with "name required", exactly when the trimmed name is empty |
| `TypeModal.Payload` | components/Modals/TypeModal.tsx:41-44 | the payload is the trimmed name and trimmed description |
| `TypeModal.AcceptedPayloadIsClean` | components/Modals/TypeModal.tsx:33-44 | an accepted payload has a non-empty name and neither field has surrounding spaces |
| `TypeModal.TypeForm.constructor` | components/Modals/TypeModal.tsx:12-15 | the form starts empty with no error |
| `TypeModal.TypeForm.Load` | components/Modals/TypeModal.tsx:18-28 | edit mode loads the name and defaults a missing description to ''; create mode clears both; the error is cleared |
| `TypeModal.TypeForm.SetName` | components/Modals/TypeModal.tsx:93 | typing sets the name only |
| `TypeModal.TypeForm.SetDescription` | components/Modals/TypeModal.tsx:105 | typing sets the description only |
| `TypeModal.TypeForm.Submit` | components/Modals/TypeModal.tsx:31-59 | a refused form sends nothing and shows the refusal; otherwise the trimmed payload is sent; the modal closes only on success; a failure shows the server's message or the generic text |
| `AttributeModal.AppendKeepsClean` | components/Modals/AttributeModal.tsx:48 | appending a new trimmed non-blank value keeps the option list distinct and trimmed |
| `AttributeModal.SpliceStart` | components/Modals/AttributeModal.tsx:56 | `splice` works at the given index when it is in range, counts a negative index from the end, and clamps both ends |
| `AttributeModal.RemoveAt` | components/Modals/AttributeModal.tsx:54-58 | an in-range splice drops one element, exactly the one at the index (as multisets); an out-of-range one changes nothing |
| `AttributeModal.RemoveAtIndex` | components/Modals/AttributeModal.tsx:54-58 | removing at index i shortens the list by one, keeps the elements before i and shifts the ones after it down by one |
| `AttributeModal.RemoveKeepsDistinct` | components/Modals/AttributeModal.tsx:54-58 | removal creates no repetition |
| `AttributeModal.RemoveKeepsClean` | components/Modals/AttributeModal.tsx:54-58 | removal keeps the option list distinct and trimmed |
| `AttributeModal.Validate` | components/Modals/AttributeModal.tsx:62-69 | submit is refused exactly when the trimmed name is empty ("name required", checked first) or the type is enum with no option ("option required") |
| `AttributeModal.Payload` | components/Modals/AttributeModal.tsx:74-79 | the payload carries the trimmed name, the menu string of the type (which reads back as that type) and the flag; the options for enum, none otherwise |
| `AttributeModal.SubmittedPayloadWellFormed` | components/Modals/AttributeModal.tsx:62-79 | an accepted payload has a non-empty trimmed name and carries options exactly when it is an enum |
| `AttributeModal.LoadedOptions` | components/Modals/AttributeModal.tsx:26-31 | an edit loads the stored `option_value`s, in order, only for an enum with an option array |
| `AttributeModal.ChangedTypeLocks` | components/Modals/AttributeModal.tsx:142 | the menu is usable on the stored type and locked on any other |
| `AttributeModal.AttributeForm.constructor` | components/Modals/AttributeModal.tsx:12-18 | the form starts as an empty filterable text attribute with no options and no error |
| `AttributeModal.AttributeForm.Load` | components/Modals/AttributeModal.tsx:21-40 | edit mode copies name, type and flag and loads the options; create mode resets to '', text, filterable, []; the error is cleared and the pending option kept; the menu is usable afterwards |
| `AttributeModal.AttributeForm.SetName` | components/Modals/AttributeModal.tsx:129 | typing sets the name |
| `AttributeModal.AttributeForm.SetNewOption` | components/Modals/AttributeModal.tsx:178 | typing sets the pending option |
| `AttributeModal.AttributeForm.ToggleFilterable` | components/Modals/AttributeModal.tsx:158 | the switch flips the filterable flag |
| `AttributeModal.AttributeForm.SelectDataType` | components/Modals/AttributeModal.tsx:139-149 | while the menu is not locked the chosen option's value becomes the type; a locked menu changes nothing |
| `AttributeModal.AttributeForm.AddOption` | components/Modals/AttributeModal.tsx:42-52 | a blank input changes nothing; a duplicate sets "already exists" and keeps the list; otherwise the trimmed value is appended and input and error are cleared; a clean list stays clean |
| `AttributeModal.AttributeForm.RemoveOption` | components/Modals/AttributeModal.tsx:54-58 | the list becomes its splice at the index, and a clean list stays clean |
| `AttributeModal.AttributeForm.Submit` | components/Modals/AttributeModal.tsx:60-95 | a refused form sends nothing and shows the refusal; otherwise the payload is sent; the modal closes only on success; a failure shows the server's message or the generic text |
| `UsersView.OrNumber` | components/Views/Users.tsx:50-51 | `n \|\| d` keeps a present non-zero number and falls back otherwise |
| `UsersView.Normalize` | components/Views/Users.tsx:42-56 | a bare array gives (array, 1, length); a `{users}` object gives (users, pages or 1, total or 0); anything else gives ([], 1, 0) |
| `UsersView.NormalizeBounds` | components/Views/Users.tsx:42-56 | with non-negative counts the page count is at least 1 and the total is non-negative; a bare array's total is its length |
| `UsersView.PrevPage` | components/Views/Users.tsx:234 | Previous never goes below page 1 and otherwise steps back by one |
| `UsersView.NextPage` | components/Views/Users.tsx:245 | Next never goes above the page count and otherwise steps forward by one |
| `UsersView.PrevNextRoundTrip` | components/Views/Users.tsx:234-245 | inside the valid range the two buttons undo each other |
| `UsersView.NextFromBeyondGoesBack` | components/Views/Users.tsx:245-246 | on a page past the last one Next stays enabled and moves back |
| `UsersView.RangeStart` | components/Views/Users.tsx:230 | the range starts at 0 for an empty page, else at (page−1)·20+1 |
| `UsersView.RangeEnd` | components/Views/Users.tsx:230 | the range ends at min(page·20, total) |
| `UsersView.RangeCountsPage` | components/Views/Users.tsx:230 | for a page consistent with the total, the range is well ordered and counts exactly the users on the page |
| `UsersView.StatusOf` | components/Views/Users.tsx:161-172 | "suspended" takes precedence over verified/unverified |
| `UsersView.AvatarOf` | components/Views/Users.tsx:138-142 | the photo if any, else the upper-cased first letter of the first name, else of the email; rendering throws when all three are empty |
| `UsersView.SuspendCall` | components/Views/Users.tsx:69-74 | suspension is sent exactly when the prompt returned a non-empty reason, with that reason |
| `UsersView.UserList.constructor` | components/Views/Users.tsx:8-18 | the list starts on page 1 of 1, empty, loading, with no search, all roles and no modal |
| `UsersView.UserList.StartFetch` | components/Views/Users.tsx:37-40 | a fetch asks for the current page, 20 users, the settled search and the role |
| `UsersView.UserList.Receive` | components/Views/Users.tsx:41-62 | a response sets the list variables to its normal form, a failure keeps them; loading ends; the page is left alone |
| `UsersView.UserList.ClickPrevious` | components/Views/Users.tsx:233-235 | an enabled Previous applies the clamp, a disabled one (page 1 or loading) does nothing |
| `UsersView.UserList.ClickNext` | components/Views/Users.tsx:244-246 | an enabled Next applies the clamp, a disabled one (last page or loading) does nothing |
| `UsersView.UserList.SearchSettled` | components/Views/Users.tsx:24-30 | a settled search term becomes the query's and resets the page to 1 |
| `UsersView.UserList.SetRole` | components/Views/Users.tsx:33-35 | a different role resets the page to 1; the same role changes nothing |
| `UsersView.UserList.OpenDetails` | components/Views/Users.tsx:134 | clicking a row selects that user and opens the modal |
| `UsersView.UserList.Suspend` | components/Views/Users.tsx:69-82 | nothing is sent without a reason; success refetches and closes the modal, failure leaves it open |
| `UsersView.UserList.Unsuspend` | components/Views/Users.tsx:84-96 | nothing is sent without confirmation; success refetches and closes the modal |
| `UsersView.UserList.CloseDetails` | components/Views/Users.tsx:261 | closing hides the modal |
| `VisitsView.StatusParam` | components/Views/Visits.tsx:18 | the 'all' filter sends no status; any other filter sends itself |
| `VisitsView.FilterLabel` | components/Views/Visits.tsx:100-104 | each filter has its fixed label, with "Rejetées" for every value outside the first five |
| `VisitsView.FilterLabelsDistinct` | components/Views/Visits.tsx:91-104 | the six filter buttons carry six different labels |
| `VisitsView.Badge` | components/Views/Visits.tsx:141-145 | the five known statuses have their badge, any other status none |
| `VisitsView.TitleText` | components/Views/Visits.tsx:129 | the property title, else 'Titre inconnu' |
| `VisitsView.CustomerText` | components/Views/Visits.tsx:132 | the customer name, else 'Inconnu' |
| `VisitsView.Actions` | components/Views/Visits.tsx:154-194 | Accept and Refuse exactly for pending; "mark as completed" exactly for accepted; Cancel exactly for confirmed and accepted; no button twice |
| `VisitsView.SettledVisitsOfferNothing` | components/Views/Visits.tsx:154-194 | rejected, completed and unknown statuses offer no action |
| `VisitsView.RejectCall` | components/Views/Visits.tsx:40-45 | a rejection is sent exactly when the prompt returned a non-empty reason |
| `VisitsView.CancelCall` | components/Views/Visits.tsx:54-57 | a cancellation is sent exactly after confirmation, as a rejection with the fixed reason |
| `VisitsView.CancelIsAdminReject` | components/Views/Visits.tsx:45-57 | a confirmed cancel is the rejection typed with the fixed reason |
| `VisitsView.CompleteCall` | components/Views/Visits.tsx:66-69 | completion is sent exactly after confirmation |
| `VisitsView.Press` | components/Views/Visits.tsx:154-192 | each button calls its handler, for the card's own visit |
| `VisitsView.CallsFollowStatus` | components/Views/Visits.tsx:154-192 | through the offered buttons only pending visits are confirmed, only accepted ones completed, and a non-pending visit is rejected only by cancellation |
| `AlertsView.FilteredAlerts` | components/Views/Alerts.tsx:92 | filtering never lengthens the list |
| `AlertsView.AllKeepsEverything` | components/Views/Alerts.tsx:92 | the 'all' filter keeps every alert in order |
| `AlertsView.FilterKeepsExactlyStatus` | components/Views/Alerts.tsx:92 | any other filter keeps exactly the alerts with that status, with their multiplicity |
| `AlertsView.FilterKeepsOrder` | components/Views/Alerts.tsx:92 | the filter keeps original order |
| `AlertsView.FilterLabel` | components/Views/Alerts.tsx:154 | the filter buttons read "Toutes", "Nouvelles", "Traitées" |
| `AlertsView.Actions` | components/Views/Alerts.tsx:254-282 | an archived alert offers only Restore; an active one always offers Contact, and Archive exactly when contacted or closed |
| `AlertsView.StripOf` | components/Views/Alerts.tsx:170 | grey iff archived, amber iff new and active, green otherwise |
| `AlertsView.Badges` | components/Views/Alerts.tsx:221-230 | "Archivée" iff archived, "Nouvelle" iff new and not archived, never both |
| `AlertsView.BadgesMatchStrip` | components/Views/Alerts.tsx:170-230 | "Nouvelle" appears exactly on amber cards and "Archivée" exactly on grey ones |
| `AlertsView.RespondCall` | components/Views/Alerts.tsx:78-83 | a response is sent exactly when the prompt returned a non-empty message |
| `AlertsView.ArchiveCall` | components/Views/Alerts.tsx:52-56 | archiving is sent exactly after confirmation |
| `AlertsView.FailureToast` | components/Views/Alerts.tsx:59-89 | archive and restore failures show the server's message or their own text; a respond failure its fixed text |
| `AlertsView.Press` | components/Views/Alerts.tsx:254-282 | each button calls its handler for the card's alert |
| `AlertsView.CallsFollowState` | components/Views/Alerts.tsx:254-282 | through the buttons an archived alert can only be restored, and an active one is archived only once handled |
| `AlertsView.AvatarOf` | components/Views/Alerts.tsx:175-179 | the photo, else the upper-cased first letter of the first name, else 'C' |
| `AlertsView.CustomerHeading` | components/Views/Alerts.tsx:183 | the full name, else `Client #` with the id or '?' |
| `AlertsView.CityHeading` | components/Views/Alerts.tsx:217 | the city, else 'Toutes zones' |
| `AlertsView.TypeChip` | components/Views/Alerts.tsx:208 | the type name, else 'Recherche' |
| `AlertsView.CapitalizeWords` | components/Views/Alerts.tsx:105 | each character matched by `\b\w` is upper-cased, every other kept |
| `AlertsView.FormatLabel` | components/Views/Alerts.tsx:105 | the label keeps the key's length, turns every `_` into a space, leaves no `_`, has no lower-case letter at a word start, and differs from the key only in case elsewhere |
| `AlertsView.UpperKeepsWordChars` | components/Views/Alerts.tsx:105 | upper-casing word starts keeps the word starts where they were |
| `AlertsView.FormatLabelIdempotent` | components/Views/Alerts.tsx:105 | formatting a formatted label changes nothing |
| `AlertsView.ChipFor` | components/Views/Alerts.tsx:105-109 | a chip shows the formatted key and the value |
| `AlertsView.RenderDetails` | components/Views/Alerts.tsx:95-118 | unparseable details give the fallback text; otherwise one chip per shown entry, in entry order |
| `AlertsView.ChipIffShown` | components/Views/Alerts.tsx:100-111 | an entry's chip appears exactly when some entry with that chip passes the key, falsy and 'Indifférent' tests |
| `AlertsView.ChipsComeFromShownEntries` | components/Views/Alerts.tsx:101-102 | every chip comes from an entry with a free key and a truthy value other than 'Indifférent' |
| `PropertiesView.SearchLocation` | components/Views/Properties.tsx:36 | the location text is address, a space and city, lower-cased |
| `PropertiesView.FilteredListings` | components/Views/Properties.tsx:35-50 | filtering never lengthens the list |
| `PropertiesView.KeptIffAllMatch` | components/Views/Properties.tsx:49 | a listing is kept iff the search, type and status tests all hold |
| `PropertiesView.FilterKeepsOrder` | components/Views/Properties.tsx:35 | the filter keeps original order |
| `PropertiesView.EmptySearchMatchesAll` | components/Views/Properties.tsx:37-38 | the empty search matches every listing |
| `PropertiesView.InitialFiltersShowEverything` | components/Views/Properties.tsx:12-14 | with the initial filters every listing is shown, in order |
| `PropertiesView.SearchIgnoresTermCase` | components/Views/Properties.tsx:37-38 | the search ignores the case of the term |
| `PropertiesView.TypeFilterSelectsType` | components/Views/Properties.tsx:45-46 | choosing type k keeps exactly the listings of type k; a type with id 0 is never kept |
| `PropertiesView.RootTitleNotSearched` | components/Views/Properties.tsx:36-38 | changing the root title never changes whether a listing matches; without an `attributes` title the search runs over status and location only |
| `PropertiesView.SearchSkipsRootTitle` | components/Views/Properties.tsx:37 | a listing titled only at the root is shown with that title but not found by it |
| `PropertiesView.StatusLabel` | components/Views/Properties.tsx:52-59 | the four known statuses have fixed labels; any other is shown raw |
| `PropertiesView.KnownStatusLabelsDistinct` | components/Views/Properties.tsx:52-59 | the four known statuses have four different labels |
| `PropertiesView.TitleText` | components/Views/Properties.tsx:140 | the title falls back root → attributes → 'Bien sans titre' |
| `PropertiesView.LocationText` | components/Views/Properties.tsx:142 | the location falls back city → attribute city → address → 'Localisation inconnue' |
| `PropertiesView.ImageUrl` | components/Views/Properties.tsx:143 | the image is the first URL, or the placeholder |
| `PropertiesView.PriceOf` | components/Views/Properties.tsx:141 | the price falls back root → attributes, 'N/A' when both are falsy |
| `PropertyDetailsModal.Lookup` | components/Modals/PropertyDetailsModal.tsx:76 | `attributes.key` is the value of the first entry with that key, and null when none has it |
| `PropertyDetailsModal.AttributesOf` | components/Modals/PropertyDetailsModal.tsx:24 | missing attributes default to none |
| `PropertyDetailsModal.ImagesOf` | components/Modals/PropertyDetailsModal.tsx:25 | missing images default to none |
| `PropertyDetailsModal.CharacteristicFor` | components/Modals/PropertyDetailsModal.tsx:119 | a characteristic's caption is its key with every `_` a space |
| `PropertyDetailsModal.Characteristics` | components/Modals/PropertyDetailsModal.tsx:114-123 | one characteristic per shown entry, in entry order |
| `PropertyDetailsModal.CharacteristicsExactly` | components/Modals/PropertyDetailsModal.tsx:114-116 | an entry is listed iff its key is not reserved and its value is truthy |
| `PropertyDetailsModal.ReservedKeysNeverListed` | components/Modals/PropertyDetailsModal.tsx:115 | no reserved key and no falsy value is ever listed |
| `PropertyDetailsModal.OwnerAvatarOf` | components/Modals/PropertyDetailsModal.tsx:143-147 | the photo, else the first letter of the first name as written, else '?' |
| `PropertyDetailsModal.OwnerCardOf` | components/Modals/PropertyDetailsModal.tsx:139-174 | the owner details when there is an owner, the "unavailable" note otherwise; the phone falls back to 'Non renseigné' |
| `PropertyDetailsModal.Render` | components/Modals/PropertyDetailsModal.tsx:20-199 | nothing when closed or without a property; main image or placeholder; gallery only with more than one image; root fields before attributes; Validate iff not validated; Delete always |
| `PropertyDetailsModal.DescriptionAlwaysShown` | components/Modals/PropertyDetailsModal.tsx:107 | the description line is never empty |
| `PropertyDetailsModal.HeadlineKeysReserved` | components/Modals/PropertyDetailsModal.tsx:114-116 | no headline field is listed again as a characteristic |

## Left out

- HTTP, toasts, console logging, `Promise.all` and the refetch after each successful call are not modelled. Call outcomes and dialog answers are parameters, and the calls are returned as request values.
- All backend rules are out of scope: sort order, atomic scope replacement, the "in use" deletion guard and cascade deletes. Only the message the view picks after a 409 is modelled.
- `JSON.parse` and `Object.entries` are not modelled. The alert details are given already split into entries, or as "not an object" when those calls throw. Entry order is taken as given, including the integer-keys-first order of `Object.entries`.
- `Intl.NumberFormat`, `toLocaleString` and `Date` formatting are not modelled. `Common.FormatPrice` stops at the amount handed to the formatter.
- The 500 ms debounce timer is not modelled. `UsersView.UserList.SearchSettled` is the moment the timer fires.
- Case mapping is ASCII only, for `toLowerCase` and `toUpperCase` alike. For the alert labels this is exact, since `\w` is ASCII without the `u` flag. For the property search and the user initials it is an approximation.
- `String(value)` of a chip or characteristic value is not modelled. The value is kept as a JSON value.
- CSS and JSX rendering are not modelled. This covers `capitalize`, colours other than the alert strip, the role badge colours and the loading spinners.
- `PropertiesView.Listing` holds the `attributes` fields the list view reads as strings, with `""` when absent. A non-string title there makes the view's `toLowerCase` throw, which is not modelled.
- `UsersView.Normalize` takes `pages` and `total` as integers. Fractional or non-numeric values are not modelled.
- `ConfigView.Chips` takes the attribute list as present. A type without an `attributes` array, which renders no chips and shows the note, is not modelled.
- The `loading` flag of the two modals and the disabled submit button it drives are not modelled.
- Dashboard, Settings, the status and reason modals, routing, session handling and the HTTP client's token refresh are outside this model.

Where the source's declared types and the form disagree: the declared `data_type` union of the API types is not used. `Catalog.DataType` holds the five types the attribute form's menu offers, and the model follows the form.
