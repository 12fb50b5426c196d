# AzulCare screens as a Dafny model

AzulCare is a web application in which parents keep the medications, documents and
appointments of their children. This project models the two screens that hold its logic:

- the family dashboard (`src/app/dashboard/page.tsx`): the list of the signed-in user's
  children, the selected child, that child's medications, documents and appointments, the four
  "add" dialogs and their forms, and the handlers that load these lists from the hosted backend
  and insert new rows into it;
- the demonstration home page (`src/app/page.tsx`): a fixed list of four appointments that the
  visitor can archive, restore and reschedule, shown in an "active" and an "archived" tab.

Modules:

- `Wrappers` — the option type used for nullable values.
- `MedicationTimes` — how the free-text "times" input of the medication form becomes the
  `times` array that is sent: split on every comma, each piece trimmed as JavaScript's
  `String.prototype.trim` does (the white-space and line-terminator code points of ECMA-262,
  sections 12.2 and 12.3). `Split` is proved to be undone by `Join` and the other way round.
- `Dashboard` — the entities (`Child`, `Medication`, `Document`, `Appointment`), the insert
  requests, the view state as one value (`View`) and each handler as a function from the old
  view to the new one. The backend is a parameter (`Backend`): a total function per query and
  per insert, answering with rows or an error. The add handlers also return the insert request
  they sent, if any, so "no request was sent" is stated and proved.
- `DashboardPage` — the page as a class `Page` with one field per piece of React state and one
  method per handler; every handler method that loads or inserts is proved to leave the page in
  the state the matching `Dashboard` function computes, and the session, dialog and form setters
  state the new state directly.
- `DemoAppointments` — the demonstration appointments, the pure list transformations behind
  each handler, the two tab filters, and a class `Home` holding the page's state.

The code is followed where it and the product's description differ:

- a stored appointment is appended to the end of the list, while medications, documents and
  children are put at the front;
- reloading the children and getting none empties the list but keeps the previous selection and
  the three lists (`Dashboard.EmptyReloadKeepsStaleSelection`);
- the document form keeps its chosen category after a successful insert;
- clicking a child's card selects it even when no backend client exists;
- saving an edit on the home page closes the editor but leaves its inputs as they were.

## Model

| member | source | states |
|---|---|---|
| MedicationTimes.SkipBlanks | src/app/dashboard/page.tsx:224 | the first position from `i` on that is not white space: everything skipped is white space |
| MedicationTimes.BackOverBlanks | src/app/dashboard/page.tsx:224 | the end of the last character that is not white space: everything stepped over is white space |
| MedicationTimes.Trim | src/app/dashboard/page.tsx:224 | `trim()` yields a string that neither starts nor ends with white space and is no longer than its input |
| MedicationTimes.TrimCutsBlanks | src/app/dashboard/page.tsx:224 | the input is white space, then the trimmed string as one contiguous slice, then white space |
| MedicationTimes.TrimKeepsOut | src/app/dashboard/page.tsx:224 | trimming introduces no character, in particular no comma |
| MedicationTimes.TrimSurrounded | src/app/dashboard/page.tsx:224 | any trimmed string surrounded by white space trims back to itself |
| MedicationTimes.Split | src/app/dashboard/page.tsx:224 | `split(',')` yields one more piece than there are commas, an empty input one piece |
| MedicationTimes.SplitPiecesFree | src/app/dashboard/page.tsx:224 | no piece of a split contains the separator |
| MedicationTimes.Occurrences | src/app/dashboard/page.tsx:224 | the number of commas, which fixes how many times are sent; what it counts is characterised by `OccurrencesIsMultiplicity` |
| MedicationTimes.OccurrencesIsMultiplicity | src/app/dashboard/page.tsx:224 | that count is the comma's multiplicity in the input |
| MedicationTimes.JoinSplit | src/app/dashboard/page.tsx:224 | joining the pieces with the separator gives back the input: splitting loses nothing |
| MedicationTimes.SplitFirstPiece | src/app/dashboard/page.tsx:224 | a separator-free prefix followed by the separator becomes the first piece |
| MedicationTimes.SplitNoSeparator | src/app/dashboard/page.tsx:224 | input without the separator is a single piece |
| MedicationTimes.SplitJoin | src/app/dashboard/page.tsx:224 | separator-free pieces, joined and split again, come back unchanged |
| MedicationTimes.ParseTimes | src/app/dashboard/page.tsx:224 | the times sent are as many as commas plus one, each the trim of its comma-separated piece, trimmed and comma-free |
| MedicationTimes.ParseTimesSingle | src/app/dashboard/page.tsx:224 | input without a comma gives one time, the trimmed input, whatever its format |
| MedicationTimes.ParseTwoPieces | src/app/dashboard/page.tsx:224 | two pieces give exactly their two trims |
| MedicationTimes.ParseTimesPair | src/app/dashboard/page.tsx:224 | two trimmed times separated by a comma and white space come out as exactly those two |
| MedicationTimes.ParseTimesTwoTimes | src/app/dashboard/page.tsx:224 | "08:00, 20:00" gives ["08:00", "20:00"] |
| MedicationTimes.ParseTimesEmpty | src/app/dashboard/page.tsx:224 | an empty input gives [""] |
| Dashboard.RowsOrEmpty | src/app/dashboard/page.tsx:155 | `data \|\| []`: the rows returned, or none when the reply carries no data |
| Dashboard.LoadChildData | src/app/dashboard/page.tsx:162-191 | without a client nothing changes; otherwise each list is replaced by its own query's rows (or none), independently, and nothing else changes |
| Dashboard.LoadChildren | src/app/dashboard/page.tsx:141-160 | without a client or on a query error nothing changes; otherwise the children are the rows; a non-empty result selects the first and loads its three lists; an empty one changes only the children; dialogs and forms never change; the selection stays among the children when one is chosen |
| Dashboard.SelectChild | src/app/dashboard/page.tsx:453-456 | the clicked child becomes the selection, its lists are loaded when there is a client, the children list, dialogs and forms are untouched, and a listed child keeps the selection in the list |
| Dashboard.AddChild | src/app/dashboard/page.tsx:193-219 | a request is sent exactly when there is a client, a user and a name, carrying the user id and the form; no request or an error leaves the view unchanged; a stored child is prepended and selected, the dialog closes, the form is emptied, nothing else changes; the selection stays in the list |
| Dashboard.AddMedication | src/app/dashboard/page.tsx:221-253 | a request is sent exactly when there is a client, a selected child and a name, for that child, with the parsed times and marked active; no request or an error leaves the view unchanged; a stored medication is prepended, the dialog closes, the form is emptied, nothing else changes |
| Dashboard.AddDocument | src/app/dashboard/page.tsx:255-283 | a request is sent exactly when there is a client, a selected child and a title, with the placeholder file reference; no request or an error leaves the view unchanged; a stored document is prepended, the dialog closes, title, date and notes are emptied and the category kept |
| Dashboard.AddAppointment | src/app/dashboard/page.tsx:285-317 | a request is sent exactly when there is a client, a selected child and a title, with no reminder sent; no request or an error leaves the view unchanged; a stored appointment is appended, the dialog closes, the form is emptied, nothing else changes |
| Dashboard.LoadChildrenSelectsFirst | src/app/dashboard/page.tsx:155-159 | loading a non-empty list of children is clicking the first one once the list is in place |
| Dashboard.EmptyReloadKeepsStaleSelection | src/app/dashboard/page.tsx:155-159 | a reload that finds no children keeps the old selection, which is then no longer in the list |
| Dashboard.AddMariaSilva | src/app/dashboard/page.tsx:193-219 | adding "Maria Silva" puts the stored row at the head of the children and selects it |
| Dashboard.AddRisperidona | src/app/dashboard/page.tsx:221-238 | adding "Risperidona" with "08:00, 20:00" sends the times ["08:00", "20:00"] |
| DashboardPage.Page.constructor | src/app/dashboard/page.tsx:73-109 | the page starts with no user, no children, no selection, empty lists, closed dialogs and empty forms |
| DashboardPage.Page.SignIn | src/app/dashboard/page.tsx:130-133 | a session reported by an authentication change makes its user the page's user; the view is unchanged |
| DashboardPage.Page.OpenSession | src/app/dashboard/page.tsx:118-122 | a session found on mount makes its user the page's user, and the page's new state is `Dashboard.LoadChildren` of the old one for that user's id |
| DashboardPage.Page.LoadChildData | src/app/dashboard/page.tsx:162-191 | the page's new state is `Dashboard.LoadChildData` of the old one |
| DashboardPage.Page.LoadChildren | src/app/dashboard/page.tsx:141-160 | the page's new state is `Dashboard.LoadChildren` of the old one |
| DashboardPage.Page.SelectChild | src/app/dashboard/page.tsx:453-456 | the page's new state is `Dashboard.SelectChild` of the old one |
| DashboardPage.Page.AddChild | src/app/dashboard/page.tsx:193-219 | new state and request sent are those of `Dashboard.AddChild`; the user is unchanged |
| DashboardPage.Page.AddMedication | src/app/dashboard/page.tsx:221-253 | new state and request sent are those of `Dashboard.AddMedication` |
| DashboardPage.Page.AddDocument | src/app/dashboard/page.tsx:255-283 | new state and request sent are those of `Dashboard.AddDocument` |
| DashboardPage.Page.AddAppointment | src/app/dashboard/page.tsx:285-317 | new state and request sent are those of `Dashboard.AddAppointment` |
| DashboardPage.Page.SetDialogOpen | src/app/dashboard/page.tsx:394 | opening or closing one dialog changes that flag only |
| DashboardPage.Page.EditChildForm | src/app/dashboard/page.tsx:414-432 | typing into the child form changes that form only |
| DashboardPage.Page.EditMedicationForm | src/app/dashboard/page.tsx:520-556 | typing into the medication form changes that form only |
| DashboardPage.Page.EditDocumentForm | src/app/dashboard/page.tsx:638-681 | typing into the document form changes that form only |
| DashboardPage.Page.EditAppointmentForm | src/app/dashboard/page.tsx:758-805 | typing into the appointment form changes that form only |
| DemoAppointments.InitialAppointments | src/app/page.tsx:78-119 | four appointments with distinct ids, the first two active and the last two archived |
| DemoAppointments.InitialTabs | src/app/page.tsx:161-162 | the page opens with the first two appointments in the active tab and the last two in the archived tab |
| DemoAppointments.SetArchived | src/app/page.tsx:126-140 | same length; each appointment with the id gets the flag and nothing else changes; every other appointment is untouched |
| DemoAppointments.ApplyEdit | src/app/page.tsx:147-152 | same length; each appointment with the id gets the form's date and time and nothing else changes; every other appointment is untouched |
| DemoAppointments.Active | src/app/page.tsx:161 | the active tab is no longer than the list and holds no archived appointment |
| DemoAppointments.Archived | src/app/page.tsx:162 | the archived tab is no longer than the list and holds only archived appointments |
| DemoAppointments.ActiveMembers | src/app/page.tsx:161 | an appointment is in the active tab if and only if it is in the list and not archived |
| DemoAppointments.ArchivedMembers | src/app/page.tsx:162 | an appointment is in the archived tab if and only if it is in the list and archived |
| DemoAppointments.TabsPartition | src/app/page.tsx:161-162 | the two tabs together hold the list's appointments, each as often as in the list |
| DemoAppointments.ActiveKeepsOrder | src/app/page.tsx:161 | the active tab keeps list order: filtering a concatenation concatenates the filtered parts |
| DemoAppointments.ArchivedKeepsOrder | src/app/page.tsx:162 | the archived tab keeps list order likewise |
| DemoAppointments.TabsOfActiveList | src/app/page.tsx:161-162 | a list with nothing archived is all in the active tab |
| DemoAppointments.TabsOfArchivedList | src/app/page.tsx:161-162 | a list with everything archived is all in the archived tab |
| DemoAppointments.TabsOfSplitList | src/app/page.tsx:161-162 | a list whose first k entries are the active ones splits into those k and the rest |
| DemoAppointments.SetArchivedIdempotent | src/app/page.tsx:126-140 | archiving or restoring twice equals doing it once |
| DemoAppointments.ArchiveThenUnarchive | src/app/page.tsx:126-140 | restoring what was just archived gives back the list when the entries with that id were active |
| DemoAppointments.TabsAfterSetArchived | src/app/page.tsx:126-140 | after setting the flag of an id, the opposite tab's members are exactly its old members with other ids |
| DemoAppointments.ArchiveLeavesActiveTab | src/app/page.tsx:126-132 | after archiving, the active tab is exactly the old active appointments with other ids; the archived tab loses nothing |
| DemoAppointments.UnarchiveLeavesArchivedTab | src/app/page.tsx:134-140 | after restoring, the archived tab is exactly the old archived appointments with other ids; the active tab loses nothing |
| DemoAppointments.ApplyEditKeepsTabs | src/app/page.tsx:147-152 | rescheduling moves no appointment between the tabs: each tab after the edit is the old tab with the same edit applied |
| DemoAppointments.Home.constructor | src/app/page.tsx:122-124 | the page starts with the four initial appointments, no editor open and empty inputs |
| DemoAppointments.Home.Archive | src/app/page.tsx:126-132 | the list becomes `SetArchived(old list, id, true)` |
| DemoAppointments.Home.Unarchive | src/app/page.tsx:134-140 | the list becomes `SetArchived(old list, id, false)` |
| DemoAppointments.Home.Edit | src/app/page.tsx:142-145 | the editor opens on the id with the given date and time; the list is untouched |
| DemoAppointments.Home.SetEditForm | src/app/page.tsx:382-388 | typing into the editor changes its inputs only |
| DemoAppointments.Home.SaveEdit | src/app/page.tsx:147-154 | the list becomes `ApplyEdit(old list, id, inputs)` and the editor closes |
| DemoAppointments.Home.CancelEdit | src/app/page.tsx:156-159 | the editor closes and its inputs are emptied; the list is untouched |

## Left out

- The login page and the construction of the backend client are not part of this model; whether
  a client exists is the boolean `client` of each operation.
- The mount effect of the dashboard is reduced to `DashboardPage.Page.OpenSession` (a session
  found on mount) and `DashboardPage.Page.SignIn` (a session reported later); the redirects to
  the login page, the loading flag and the unsubscription on unmount are not modelled.
- `handleLogout` only signs out and navigates; it does not clear any local state, and as it
  changes nothing the model holds it is not modelled.
- The handlers are asynchronous in the source; the model runs each one to completion with the
  backend's answers fixed in advance. Interleavings of concurrent handlers, and late answers to
  an earlier selection overwriting a later one (the code has no guard against this), are not
  modelled.
- The server's ordering of query results (by creation time or by date) is part of the backend's
  answer, not computed by the model.
- Toast messages, console output, rendering, date formatting and the static demonstration data
  other than the appointments (children, medications, documents shown on the home page) are not
  modelled.
- DashboardPage.Page.EditChildForm, EditMedicationForm, EditDocumentForm, EditAppointmentForm and
  DemoAppointments.Home.SetEditForm: each input's `onChange` sets one field; the model sets the
  whole form record at once, which covers every single-field change.
