/**
 * The dashboard page as the object React keeps for it: one field per piece of state, and
 * one method per handler. Each handler that loads or inserts is proved to leave the page in
 * the state that the matching transition of module Dashboard computes from the state before
 * the call; the session, dialog and form setters state the new state directly.
 */
module DashboardPage {
  import opened Wrappers
  import opened Dashboard

  class Page {
    /** Whether a backend client exists (`supabase` is not null). */
    const client: bool
    var user: Option<User>

    var children: seq<Child>
    var selected: Option<Child>
    var medications: seq<Medication>
    var documents: seq<Document>
    var appointments: seq<Appointment>

    var addChildOpen: bool
    var addMedicationOpen: bool
    var addDocumentOpen: bool
    var addAppointmentOpen: bool

    var childForm: ChildForm
    var medicationForm: MedicationForm
    var documentForm: DocumentForm
    var appointmentForm: AppointmentForm

    /** The page's state as a value. */
    ghost function View(): View
      reads this
    {
      Dashboard.View(children, selected, medications, documents, appointments,
                     Dialogs(addChildOpen, addMedicationOpen, addDocumentOpen, addAppointmentOpen),
                     childForm, medicationForm, documentForm, appointmentForm)
    }

    constructor (client: bool)
      ensures this.client == client && user == None
      ensures View() == InitialView
    {
      this.client := client;
      user := None;
      children, selected := [], None;
      medications, documents, appointments := [], [], [];
      addChildOpen, addMedicationOpen, addDocumentOpen, addAppointmentOpen := false, false, false, false;
      childForm := EmptyChildForm;
      medicationForm := EmptyMedicationForm;
      documentForm := DocumentForm(Prescription, "", "", "");
      appointmentForm := EmptyAppointmentForm;
    }

    /** An authentication change reports a session: its user becomes the page's user. */
    method SignIn(u: User)
      modifies this
      ensures user == Some(u) && View() == old(View())
    {
      user := Some(u);
    }

    /** On mount, a session is found: its user becomes the page's user and that user's children are loaded. */
    method OpenSession(u: User, db: Backend)
      modifies this
      ensures user == Some(u)
      ensures View() == Dashboard.LoadChildren(old(View()), client, u.id, db)
    {
      user := Some(u);
      LoadChildren(u.id, db);
    }

    method LoadChildData(childId: string, db: Backend)
      modifies this
      ensures View() == Dashboard.LoadChildData(old(View()), client, childId, db)
      ensures user == old(user)
    {
      if !client {
        return;
      }
      medications := RowsOrEmpty(db.medicationsOf(childId));
      documents := RowsOrEmpty(db.documentsOf(childId));
      appointments := RowsOrEmpty(db.appointmentsOf(childId));
    }

    method LoadChildren(userId: string, db: Backend)
      modifies this
      ensures View() == Dashboard.LoadChildren(old(View()), client, userId, db)
      ensures user == old(user)
    {
      if !client {
        return;
      }
      var reply := db.childrenOf(userId);
      if reply.QueryError? {
        return;
      }
      children := RowsOrEmpty(reply);
      if reply.data.Some? && |reply.data.value| > 0 {
        selected := Some(reply.data.value[0]);
        LoadChildData(reply.data.value[0].id, db);
      }
    }

    /** The click handler of a child's card. */
    method SelectChild(child: Child, db: Backend)
      modifies this
      ensures View() == Dashboard.SelectChild(old(View()), client, child, db)
      ensures user == old(user)
    {
      selected := Some(child);
      LoadChildData(child.id, db);
    }

    method AddChild(db: Backend) returns (sent: Option<NewChild>)
      modifies this
      ensures var step := Dashboard.AddChild(old(View()), client, user, db);
              View() == step.view && sent == step.sent
      ensures user == old(user)
    {
      if user.None? || childForm.name == "" || !client {
        return None;
      }
      var request := NewChild(user.value.id, childForm.name, childForm.birthDate, childForm.notes);
      sent := Some(request);
      var reply := db.insertChild(request);
      if reply.InsertError? {
        return;
      }
      children := [reply.row] + children;
      selected := Some(reply.row);
      addChildOpen := false;
      childForm := EmptyChildForm;
    }

    method AddMedication(db: Backend) returns (sent: Option<NewMedication>)
      modifies this
      ensures var step := Dashboard.AddMedication(old(View()), client, db);
              View() == step.view && sent == step.sent
      ensures user == old(user)
    {
      if selected.None? || medicationForm.name == "" || !client {
        return None;
      }
      var times := MedicationTimes.ParseTimes(medicationForm.times);
      var request := NewMedication(selected.value.id, medicationForm.name, medicationForm.dosage,
                                   medicationForm.frequency, times, medicationForm.notes, true);
      sent := Some(request);
      var reply := db.insertMedication(request);
      if reply.InsertError? {
        return;
      }
      medications := [reply.row] + medications;
      addMedicationOpen := false;
      medicationForm := EmptyMedicationForm;
    }

    method AddDocument(db: Backend) returns (sent: Option<NewDocument>)
      modifies this
      ensures var step := Dashboard.AddDocument(old(View()), client, db);
              View() == step.view && sent == step.sent
      ensures user == old(user)
    {
      if selected.None? || documentForm.title == "" || !client {
        return None;
      }
      var request := NewDocument(selected.value.id, documentForm.kind, documentForm.title,
                                 PlaceholderFileUrl, documentForm.date, documentForm.notes);
      sent := Some(request);
      var reply := db.insertDocument(request);
      if reply.InsertError? {
        return;
      }
      documents := [reply.row] + documents;
      addDocumentOpen := false;
      documentForm := documentForm.(title := "", date := "", notes := "");
    }

    method AddAppointment(db: Backend) returns (sent: Option<NewAppointment>)
      modifies this
      ensures var step := Dashboard.AddAppointment(old(View()), client, db);
              View() == step.view && sent == step.sent
      ensures user == old(user)
    {
      if selected.None? || appointmentForm.title == "" || !client {
        return None;
      }
      var request := NewAppointment(selected.value.id, appointmentForm.kind, appointmentForm.title,
                                    appointmentForm.date, appointmentForm.time,
                                    appointmentForm.location, appointmentForm.notes, false);
      sent := Some(request);
      var reply := db.insertAppointment(request);
      if reply.InsertError? {
        return;
      }
      appointments := appointments + [reply.row];
      addAppointmentOpen := false;
      appointmentForm := EmptyAppointmentForm;
    }

    /** A dialog's `onOpenChange`, or the button that opens the "add child" dialog. */
    method SetDialogOpen(name: DialogName, open: bool)
      modifies this
      ensures user == old(user)
      ensures View() == old(View()).(dialogs :=
        match name
        case AddChildDialog => old(View()).dialogs.(addChild := open)
        case AddMedicationDialog => old(View()).dialogs.(addMedication := open)
        case AddDocumentDialog => old(View()).dialogs.(addDocument := open)
        case AddAppointmentDialog => old(View()).dialogs.(addAppointment := open))
    {
      match name
      case AddChildDialog => addChildOpen := open;
      case AddMedicationDialog => addMedicationOpen := open;
      case AddDocumentDialog => addDocumentOpen := open;
      case AddAppointmentDialog => addAppointmentOpen := open;
    }

    /** The `onChange` handlers of the child form's inputs. */
    method EditChildForm(f: ChildForm)
      modifies this
      ensures View() == old(View()).(childForm := f) && user == old(user)
    {
      childForm := f;
    }

    /** The `onChange` handlers of the medication form's inputs. */
    method EditMedicationForm(f: MedicationForm)
      modifies this
      ensures View() == old(View()).(medicationForm := f) && user == old(user)
    {
      medicationForm := f;
    }

    /** The `onChange` handlers of the document form's inputs. */
    method EditDocumentForm(f: DocumentForm)
      modifies this
      ensures View() == old(View()).(documentForm := f) && user == old(user)
    {
      documentForm := f;
    }

    /** The `onChange` handlers of the appointment form's inputs. */
    method EditAppointmentForm(f: AppointmentForm)
      modifies this
      ensures View() == old(View()).(appointmentForm := f) && user == old(user)
    {
      appointmentForm := f;
    }
  }
}
