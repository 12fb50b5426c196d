/**
 * The view state of the family dashboard and the transitions its handlers make on it.
 *
 * The hosted backend is an oracle: a `Backend` value answers each query (rows filtered by
 * an owner id) and each insert (the row the server stored, with its id, or an error).
 * Given that oracle every handler is a deterministic function from the old view state to
 * the new one; the add handlers also say which insert request, if any, they sent.
 */
module Dashboard {
  import opened Wrappers
  import MedicationTimes

  datatype User = User(id: string)

  datatype Child = Child(id: string, name: string, birthDate: string,
                         photoUrl: Option<string>, notes: Option<string>)

  datatype Medication = Medication(id: string, childId: string, name: string, dosage: string,
                                   frequency: string, times: seq<string>, notes: Option<string>,
                                   active: bool)

  /** The document categories 'receita', 'exame' and 'resultado'. */
  datatype DocumentKind = Prescription | TestOrder | TestResult

  datatype Document = Document(id: string, childId: string, kind: DocumentKind, title: string,
                               fileUrl: string, date: string, notes: Option<string>)

  datatype Appointment = Appointment(id: string, childId: string, kind: string, title: string,
                                     date: string, time: string, location: Option<string>,
                                     notes: Option<string>)

  /** The rows the dashboard sends to the `insert` of each table. */
  datatype NewChild = NewChild(userId: string, name: string, birthDate: string, notes: string)

  datatype NewMedication = NewMedication(childId: string, name: string, dosage: string,
                                         frequency: string, times: seq<string>, notes: string,
                                         active: bool)

  datatype NewDocument = NewDocument(childId: string, kind: DocumentKind, title: string,
                                     fileUrl: string, date: string, notes: string)

  datatype NewAppointment = NewAppointment(childId: string, kind: string, title: string,
                                           date: string, time: string, location: string,
                                           notes: string, reminderSent: bool)

  /** The file reference every new document gets: no file is uploaded. */
  const PlaceholderFileUrl: string := "https://placeholder.com/document.pdf"

  /** The answer to a query: an error, or a `data` field that may be null. */
  datatype QueryReply<T> = QueryError | QueryData(data: Option<seq<T>>)

  /** The answer to an insert followed by `.select().single()`. */
  datatype InsertReply<T> = InsertError | Inserted(row: T)

  /** The remote store, seen only through its answers. */
  datatype Backend = Backend(
    childrenOf: string -> QueryReply<Child>,
    medicationsOf: string -> QueryReply<Medication>,
    documentsOf: string -> QueryReply<Document>,
    appointmentsOf: string -> QueryReply<Appointment>,
    insertChild: NewChild -> InsertReply<Child>,
    insertMedication: NewMedication -> InsertReply<Medication>,
    insertDocument: NewDocument -> InsertReply<Document>,
    insertAppointment: NewAppointment -> InsertReply<Appointment>)

  /** `data || []`: the rows of a reply, or none when there was an error or no data. */
  function RowsOrEmpty<T>(reply: QueryReply<T>): (rows: seq<T>)
    ensures reply.QueryData? && reply.data.Some? ==> rows == reply.data.value
    ensures reply.QueryError? || reply.data.None? ==> rows == []
  {
    if reply.QueryData? && reply.data.Some? then reply.data.value else []
  }

  datatype ChildForm = ChildForm(name: string, birthDate: string, notes: string)

  datatype MedicationForm = MedicationForm(name: string, dosage: string, frequency: string,
                                           times: string, notes: string)

  datatype DocumentForm = DocumentForm(kind: DocumentKind, title: string, date: string, notes: string)

  datatype AppointmentForm = AppointmentForm(kind: string, title: string, date: string,
                                             time: string, location: string, notes: string)

  const EmptyChildForm := ChildForm("", "", "")
  const EmptyMedicationForm := MedicationForm("", "", "", "", "")
  const EmptyAppointmentForm := AppointmentForm("", "", "", "", "", "")

  /** Which of the four "add" dialogs are open. */
  datatype Dialogs = Dialogs(addChild: bool, addMedication: bool, addDocument: bool, addAppointment: bool)

  datatype DialogName = AddChildDialog | AddMedicationDialog | AddDocumentDialog | AddAppointmentDialog

  /** A snapshot of everything the dashboard keeps in memory besides the signed-in user. */
  datatype View = View(
    children: seq<Child>,
    selected: Option<Child>,
    medications: seq<Medication>,
    documents: seq<Document>,
    appointments: seq<Appointment>,
    dialogs: Dialogs,
    childForm: ChildForm,
    medicationForm: MedicationForm,
    documentForm: DocumentForm,
    appointmentForm: AppointmentForm)

  /** The state the page starts in: nothing loaded, nothing selected, dialogs closed, forms empty
      (the document category starts at 'receita'). */
  const InitialView := View([], None, [], [], [], Dialogs(false, false, false, false),
                            EmptyChildForm, EmptyMedicationForm,
                            DocumentForm(Prescription, "", "", ""), EmptyAppointmentForm)

  /** The selected child, if any, is one of the loaded children. */
  predicate SelectionInList(v: View) {
    v.selected.Some? ==> v.selected.value in v.children
  }

  /** The outcome of an add handler: the new view and the insert request it sent, if any. */
  datatype Step<R> = Step(view: View, sent: Option<R>)

  /** `loadChildData(childId)`: each of the three lists is replaced by its own query's rows,
      or by no rows when that query gave no data; nothing else changes. */
  function LoadChildData(v: View, client: bool, childId: string, db: Backend): (r: View)
    ensures !client ==> r == v
    ensures client ==> (r.medications == RowsOrEmpty(db.medicationsOf(childId))
                        && r.documents == RowsOrEmpty(db.documentsOf(childId))
                        && r.appointments == RowsOrEmpty(db.appointmentsOf(childId)))
    ensures r.children == v.children && r.selected == v.selected
    ensures r.dialogs == v.dialogs && r.childForm == v.childForm && r.medicationForm == v.medicationForm
         && r.documentForm == v.documentForm && r.appointmentForm == v.appointmentForm
  {
    if !client then v
    else
      v.(medications := RowsOrEmpty(db.medicationsOf(childId)),
         documents := RowsOrEmpty(db.documentsOf(childId)),
         appointments := RowsOrEmpty(db.appointmentsOf(childId)))
  }

  /** `loadChildren(userId)`: on an error nothing changes; otherwise the children become the
      query's rows, and when there is at least one the first is selected and its data loaded,
      while with none the selection and the three lists stay as they were. */
  function LoadChildren(v: View, client: bool, userId: string, db: Backend): (r: View)
    ensures !client || db.childrenOf(userId).QueryError? ==> r == v
    ensures client && db.childrenOf(userId).QueryData? ==> r.children == RowsOrEmpty(db.childrenOf(userId))
    ensures client && |RowsOrEmpty(db.childrenOf(userId))| > 0 ==>
              var first := RowsOrEmpty(db.childrenOf(userId))[0];
              r.selected == Some(first)
              && r.medications == RowsOrEmpty(db.medicationsOf(first.id))
              && r.documents == RowsOrEmpty(db.documentsOf(first.id))
              && r.appointments == RowsOrEmpty(db.appointmentsOf(first.id))
    ensures client && db.childrenOf(userId).QueryData? && RowsOrEmpty(db.childrenOf(userId)) == [] ==>
              r == v.(children := [])
    ensures r.dialogs == v.dialogs && r.childForm == v.childForm && r.medicationForm == v.medicationForm
         && r.documentForm == v.documentForm && r.appointmentForm == v.appointmentForm
    ensures client && |RowsOrEmpty(db.childrenOf(userId))| > 0 ==> SelectionInList(r)
    ensures SelectionInList(v) && (v.selected.None? || db.childrenOf(userId).QueryError?) ==> SelectionInList(r)
  {
    if !client then v
    else
      var reply := db.childrenOf(userId);
      if reply.QueryError? then v
      else
        var rows := RowsOrEmpty(reply);
        if |rows| > 0 then
          LoadChildData(v.(children := rows, selected := Some(rows[0])), client, rows[0].id, db)
        else
          v.(children := rows)
  }

  /** Clicking a child's card: it becomes the selection (even without a backend client) and its
      data is loaded; the children list and the forms are untouched. */
  function SelectChild(v: View, client: bool, child: Child, db: Backend): (r: View)
    ensures r.selected == Some(child) && r.children == v.children
    ensures client ==> (r.medications == RowsOrEmpty(db.medicationsOf(child.id))
                        && r.documents == RowsOrEmpty(db.documentsOf(child.id))
                        && r.appointments == RowsOrEmpty(db.appointmentsOf(child.id)))
    ensures !client ==> r == v.(selected := Some(child))
    ensures r.dialogs == v.dialogs && r.childForm == v.childForm && r.medicationForm == v.medicationForm
         && r.documentForm == v.documentForm && r.appointmentForm == v.appointmentForm
    ensures child in v.children ==> SelectionInList(r)
  {
    LoadChildData(v.(selected := Some(child)), client, child.id, db)
  }

  /** `handleAddChild`: without a client, a signed-in user or a name no request is sent and
      nothing changes; an insert error changes nothing either; a stored child goes to the front
      of the list and becomes the selection, the dialog closes and the form is cleared. */
  function AddChild(v: View, client: bool, user: Option<User>, db: Backend): (r: Step<NewChild>)
    ensures r.sent.Some? <==> client && user.Some? && v.childForm.name != ""
    ensures r.sent.Some? ==> r.sent.value == NewChild(user.value.id, v.childForm.name,
                                                       v.childForm.birthDate, v.childForm.notes)
    ensures r.sent.None? || db.insertChild(r.sent.value).InsertError? ==> r.view == v
    ensures r.sent.Some? && db.insertChild(r.sent.value).Inserted? ==>
              var row := db.insertChild(r.sent.value).row;
              r.view.children == [row] + v.children && r.view.selected == Some(row)
              && !r.view.dialogs.addChild && r.view.childForm == EmptyChildForm
              && r.view == v.(children := r.view.children, selected := r.view.selected,
                              dialogs := r.view.dialogs, childForm := r.view.childForm)
              && r.view.dialogs == v.dialogs.(addChild := false)
    ensures SelectionInList(v) ==> SelectionInList(r.view)
  {
    if !client || user.None? || v.childForm.name == "" then Step(v, None)
    else
      var request := NewChild(user.value.id, v.childForm.name, v.childForm.birthDate, v.childForm.notes);
      match db.insertChild(request)
      case InsertError => Step(v, Some(request))
      case Inserted(row) =>
        Step(v.(children := [row] + v.children, selected := Some(row),
                dialogs := v.dialogs.(addChild := false), childForm := EmptyChildForm),
             Some(request))
  }

  /** `handleAddMedication`: needs a client, a selected child and a name; the request is for the
      selected child, marked active, with the times parsed from the form; a stored medication goes
      to the front of the list, the dialog closes and the form is cleared. */
  function AddMedication(v: View, client: bool, db: Backend): (r: Step<NewMedication>)
    ensures r.sent.Some? <==> client && v.selected.Some? && v.medicationForm.name != ""
    ensures r.sent.Some? ==>
              var f := v.medicationForm;
              r.sent.value == NewMedication(v.selected.value.id, f.name, f.dosage, f.frequency,
                                            MedicationTimes.ParseTimes(f.times), f.notes, true)
    ensures r.sent.None? || db.insertMedication(r.sent.value).InsertError? ==> r.view == v
    ensures r.sent.Some? && db.insertMedication(r.sent.value).Inserted? ==>
              var row := db.insertMedication(r.sent.value).row;
              r.view.medications == [row] + v.medications
              && r.view.medicationForm == EmptyMedicationForm
              && r.view.dialogs == v.dialogs.(addMedication := false)
              && r.view == v.(medications := r.view.medications, dialogs := r.view.dialogs,
                              medicationForm := r.view.medicationForm)
    ensures SelectionInList(v) ==> SelectionInList(r.view)
  {
    if !client || v.selected.None? || v.medicationForm.name == "" then Step(v, None)
    else
      var f := v.medicationForm;
      var request := NewMedication(v.selected.value.id, f.name, f.dosage, f.frequency,
                                   MedicationTimes.ParseTimes(f.times), f.notes, true);
      match db.insertMedication(request)
      case InsertError => Step(v, Some(request))
      case Inserted(row) =>
        Step(v.(medications := [row] + v.medications,
                dialogs := v.dialogs.(addMedication := false),
                medicationForm := EmptyMedicationForm),
             Some(request))
  }

  /** `handleAddDocument`: needs a client, a selected child and a title; the request carries the
      placeholder file reference; a stored document goes to the front of the list, the dialog
      closes and title, date and notes are cleared while the chosen category is kept. */
  function AddDocument(v: View, client: bool, db: Backend): (r: Step<NewDocument>)
    ensures r.sent.Some? <==> client && v.selected.Some? && v.documentForm.title != ""
    ensures r.sent.Some? ==>
              var f := v.documentForm;
              r.sent.value == NewDocument(v.selected.value.id, f.kind, f.title, PlaceholderFileUrl,
                                          f.date, f.notes)
    ensures r.sent.None? || db.insertDocument(r.sent.value).InsertError? ==> r.view == v
    ensures r.sent.Some? && db.insertDocument(r.sent.value).Inserted? ==>
              var row := db.insertDocument(r.sent.value).row;
              r.view.documents == [row] + v.documents
              && r.view.documentForm == DocumentForm(v.documentForm.kind, "", "", "")
              && r.view.dialogs == v.dialogs.(addDocument := false)
              && r.view == v.(documents := r.view.documents, dialogs := r.view.dialogs,
                              documentForm := r.view.documentForm)
    ensures SelectionInList(v) ==> SelectionInList(r.view)
  {
    if !client || v.selected.None? || v.documentForm.title == "" then Step(v, None)
    else
      var f := v.documentForm;
      var request := NewDocument(v.selected.value.id, f.kind, f.title, PlaceholderFileUrl, f.date, f.notes);
      match db.insertDocument(request)
      case InsertError => Step(v, Some(request))
      case Inserted(row) =>
        Step(v.(documents := [row] + v.documents,
                dialogs := v.dialogs.(addDocument := false),
                documentForm := f.(title := "", date := "", notes := "")),
             Some(request))
  }

  /** `handleAddAppointment`: needs a client, a selected child and a title; the request is sent
      with no reminder sent yet; a stored appointment goes to the END of the list, the dialog
      closes and the form is cleared. */
  function AddAppointment(v: View, client: bool, db: Backend): (r: Step<NewAppointment>)
    ensures r.sent.Some? <==> client && v.selected.Some? && v.appointmentForm.title != ""
    ensures r.sent.Some? ==>
              var f := v.appointmentForm;
              r.sent.value == NewAppointment(v.selected.value.id, f.kind, f.title, f.date, f.time,
                                             f.location, f.notes, false)
    ensures r.sent.None? || db.insertAppointment(r.sent.value).InsertError? ==> r.view == v
    ensures r.sent.Some? && db.insertAppointment(r.sent.value).Inserted? ==>
              var row := db.insertAppointment(r.sent.value).row;
              r.view.appointments == v.appointments + [row]
              && r.view.appointmentForm == EmptyAppointmentForm
              && r.view.dialogs == v.dialogs.(addAppointment := false)
              && r.view == v.(appointments := r.view.appointments, dialogs := r.view.dialogs,
                              appointmentForm := r.view.appointmentForm)
    ensures SelectionInList(v) ==> SelectionInList(r.view)
  {
    if !client || v.selected.None? || v.appointmentForm.title == "" then Step(v, None)
    else
      var f := v.appointmentForm;
      var request := NewAppointment(v.selected.value.id, f.kind, f.title, f.date, f.time,
                                    f.location, f.notes, false);
      match db.insertAppointment(request)
      case InsertError => Step(v, Some(request))
      case Inserted(row) =>
        Step(v.(appointments := v.appointments + [row],
                dialogs := v.dialogs.(addAppointment := false),
                appointmentForm := EmptyAppointmentForm),
             Some(request))
  }

  /** Loading a non-empty list of children is the same as clicking the first of them once the list is in place. */
  lemma LoadChildrenSelectsFirst(v: View, userId: string, db: Backend)
    requires |RowsOrEmpty(db.childrenOf(userId))| > 0
    ensures var rows := RowsOrEmpty(db.childrenOf(userId));
            LoadChildren(v, true, userId, db) == SelectChild(v.(children := rows), true, rows[0], db)
  {
  }

  /** A reload that finds no children empties the list but keeps the old selection, so the
      selection can name a child that is no longer listed. */
  lemma EmptyReloadKeepsStaleSelection(v: View, userId: string, db: Backend)
    requires v.selected.Some? && db.childrenOf(userId) == QueryData(Some([]))
    ensures LoadChildren(v, true, userId, db).selected == v.selected
    ensures !SelectionInList(LoadChildren(v, true, userId, db))
  {
  }

  /** Adding "Maria Silva" with birth date 2018-05-15 to a signed-in dashboard puts her, as stored
      by the server, at the head of the children and selects her. */
  lemma AddMariaSilva(v: View, user: User, db: Backend, stored: Child)
    requires v.childForm == ChildForm("Maria Silva", "2018-05-15", "")
    requires db.insertChild(NewChild(user.id, "Maria Silva", "2018-05-15", "")) == Inserted(stored)
    ensures AddChild(v, true, Some(user), db).view.children == [stored] + v.children
    ensures AddChild(v, true, Some(user), db).view.selected == Some(stored)
  {
  }

  /** Adding "Risperidona" with times "08:00, 20:00" sends exactly the times "08:00" and "20:00". */
  lemma AddRisperidona(v: View, db: Backend)
    requires v.selected.Some?
    requires v.medicationForm == MedicationForm("Risperidona", "1mg", "2x ao dia", "08:00, 20:00", "")
    ensures AddMedication(v, true, db).sent.Some?
    ensures AddMedication(v, true, db).sent.value.times == ["08:00", "20:00"]
  {
    MedicationTimes.ParseTimesTwoTimes();
  }
}
