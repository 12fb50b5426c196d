/**
 * The demonstration home page: a fixed list of four appointments held in local state,
 * which the visitor can archive, restore and reschedule (date and time only), shown in
 * two tabs, the active appointments and the archived ones.
 */
module DemoAppointments {
  import opened Wrappers

  datatype Appointment = Appointment(id: string, kind: string, title: string, date: string,
                                     time: string, location: string, notes: string, archived: bool)

  /** The inline editor's two inputs. */
  datatype EditForm = EditForm(date: string, time: string)

  const EmptyEditForm := EditForm("", "")

  /** No two appointments of the list share an id. */
  predicate DistinctIds(apps: seq<Appointment>) {
    forall i, j :: 0 <= i < j < |apps| ==> apps[i].id != apps[j].id
  }

  /** The four appointments the page starts with: two upcoming, two already archived. */
  function InitialAppointments(): (apps: seq<Appointment>)
    ensures |apps| == 4 && DistinctIds(apps)
    ensures forall i :: 0 <= i < |apps| ==> (apps[i].archived <==> i >= 2)
  {
    [ Appointment("1", "Consulta", "Consulta com Neurologista", "2024-02-15", "14:30",
                  "Clínica São Lucas", "Levar exames anteriores", false),
      Appointment("2", "Exame", "Exame de Sangue", "2024-02-20", "08:00",
                  "Laboratório Central", "Jejum de 8 horas", false),
      Appointment("3", "Consulta", "Consulta com Pediatra", "2024-01-10", "10:00",
                  "Clínica Infantil", "Consulta de rotina realizada", true),
      Appointment("4", "Exame", "Raio-X de Tórax", "2024-01-05", "15:00",
                  "Hospital Central", "Exame realizado com sucesso", true) ]
  }

  /** The list after setting `archived` to `flag` on every appointment whose id is `id`. */
  function SetArchived(apps: seq<Appointment>, id: string, flag: bool): (r: seq<Appointment>)
    ensures |r| == |apps|
    ensures forall i :: 0 <= i < |apps| && apps[i].id == id ==> r[i] == apps[i].(archived := flag)
    ensures forall i :: 0 <= i < |apps| && apps[i].id != id ==> r[i] == apps[i]
  {
    if apps == [] then []
    else
      var head := if apps[0].id == id then apps[0].(archived := flag) else apps[0];
      [head] + SetArchived(apps[1..], id, flag)
  }

  /** The list after giving every appointment whose id is `id` the date and time of `form`. */
  function ApplyEdit(apps: seq<Appointment>, id: string, form: EditForm): (r: seq<Appointment>)
    ensures |r| == |apps|
    ensures forall i :: 0 <= i < |apps| && apps[i].id == id ==>
              r[i] == apps[i].(date := form.date, time := form.time)
    ensures forall i :: 0 <= i < |apps| && apps[i].id != id ==> r[i] == apps[i]
  {
    if apps == [] then []
    else
      var head := if apps[0].id == id then apps[0].(date := form.date, time := form.time) else apps[0];
      [head] + ApplyEdit(apps[1..], id, form)
  }

  /** The "active" tab: the appointments not archived, in list order. */
  function Active(apps: seq<Appointment>): (r: seq<Appointment>)
    ensures |r| <= |apps|
    ensures forall i :: 0 <= i < |r| ==> !r[i].archived
  {
    if apps == [] then []
    else if apps[0].archived then Active(apps[1..])
    else [apps[0]] + Active(apps[1..])
  }

  /** The "archived" tab: the archived appointments, in list order. */
  function Archived(apps: seq<Appointment>): (r: seq<Appointment>)
    ensures |r| <= |apps|
    ensures forall i :: 0 <= i < |r| ==> r[i].archived
  {
    if apps == [] then []
    else if apps[0].archived then [apps[0]] + Archived(apps[1..])
    else Archived(apps[1..])
  }

  /** The active tab holds every appointment of the list that is not archived, and nothing else. */
  lemma {:induction false} ActiveMembers(apps: seq<Appointment>)
    ensures forall x :: x in Active(apps) <==> x in apps && !x.archived
  {
    if apps != [] {
      ActiveMembers(apps[1..]);
      assert apps == [apps[0]] + apps[1..];
    }
  }

  /** The archived tab holds every archived appointment of the list, and nothing else. */
  lemma {:induction false} ArchivedMembers(apps: seq<Appointment>)
    ensures forall x :: x in Archived(apps) <==> x in apps && x.archived
  {
    if apps != [] {
      ArchivedMembers(apps[1..]);
      assert apps == [apps[0]] + apps[1..];
    }
  }

  /** The two tabs split the list: every appointment is in exactly one of them, as many times as in the list. */
  lemma {:induction false} TabsPartition(apps: seq<Appointment>)
    ensures multiset(Active(apps)) + multiset(Archived(apps)) == multiset(apps)
    ensures |Active(apps)| + |Archived(apps)| == |apps|
  {
    if apps != [] {
      TabsPartition(apps[1..]);
      assert apps == [apps[0]] + apps[1..];
    }
  }

  /** The active tab keeps the list's order: filtering a concatenation concatenates the filtered parts. */
  lemma {:induction false} ActiveKeepsOrder(a: seq<Appointment>, b: seq<Appointment>)
    ensures Active(a + b) == Active(a) + Active(b)
  {
    if a != [] {
      ActiveKeepsOrder(a[1..], b);
      assert (a + b)[1..] == a[1..] + b;
      if a[0].archived {
        assert Active(a + b) == Active(a[1..] + b);
      } else {
        assert Active(a + b) == [a[0]] + Active(a[1..] + b);
      }
    } else {
      assert a + b == b;
    }
  }

  /** The archived tab keeps the list's order as well. */
  lemma {:induction false} ArchivedKeepsOrder(a: seq<Appointment>, b: seq<Appointment>)
    ensures Archived(a + b) == Archived(a) + Archived(b)
  {
    if a != [] {
      ArchivedKeepsOrder(a[1..], b);
      assert (a + b)[1..] == a[1..] + b;
      if a[0].archived {
        assert Archived(a + b) == [a[0]] + Archived(a[1..] + b);
      } else {
        assert Archived(a + b) == Archived(a[1..] + b);
      }
    } else {
      assert a + b == b;
    }
  }

  /** A list with nothing archived is all in the active tab. */
  lemma {:induction false} TabsOfActiveList(s: seq<Appointment>)
    requires forall i :: 0 <= i < |s| ==> !s[i].archived
    ensures Active(s) == s && Archived(s) == []
  {
    if s != [] {
      TabsOfActiveList(s[1..]);
    }
  }

  /** A list with everything archived is all in the archived tab. */
  lemma {:induction false} TabsOfArchivedList(s: seq<Appointment>)
    requires forall i :: 0 <= i < |s| ==> s[i].archived
    ensures Active(s) == [] && Archived(s) == s
  {
    if s != [] {
      TabsOfArchivedList(s[1..]);
    }
  }

  /** A list whose first `k` appointments are the active ones shows those `k` in the active tab and the rest in the archived tab. */
  lemma TabsOfSplitList(s: seq<Appointment>, k: nat)
    requires k <= |s|
    requires forall i :: 0 <= i < |s| ==> (s[i].archived <==> i >= k)
    ensures Active(s) == s[..k] && Archived(s) == s[k..]
  {
    TabsOfActiveList(s[..k]);
    TabsOfArchivedList(s[k..]);
    ActiveKeepsOrder(s[..k], s[k..]);
    ArchivedKeepsOrder(s[..k], s[k..]);
    assert s[..k] + s[k..] == s;
  }

  /** The page opens with the first two appointments in the active tab and the last two in the archived tab. */
  lemma InitialTabs()
    ensures Active(InitialAppointments()) == InitialAppointments()[..2]
    ensures Archived(InitialAppointments()) == InitialAppointments()[2..]
  {
    TabsOfSplitList(InitialAppointments(), 2);
  }

  /** Archiving or restoring twice is the same as once. */
  lemma SetArchivedIdempotent(apps: seq<Appointment>, id: string, flag: bool)
    ensures SetArchived(SetArchived(apps, id, flag), id, flag) == SetArchived(apps, id, flag)
  {
  }

  /** Restoring what was just archived gives back the list, when the appointments with that id were active. */
  lemma ArchiveThenUnarchive(apps: seq<Appointment>, id: string)
    requires forall i :: 0 <= i < |apps| && apps[i].id == id ==> !apps[i].archived
    ensures SetArchived(SetArchived(apps, id, true), id, false) == apps
  {
  }

  /** After setting the archived flag of `id` to `flag`, the tab for `!flag` holds exactly its old
      members with other ids, and the tab for `flag` keeps all its old members. */
  lemma TabsAfterSetArchived(apps: seq<Appointment>, id: string, flag: bool, x: Appointment)
    ensures x in SetArchived(apps, id, flag) && x.archived != flag <==> x in apps && x.archived != flag && x.id != id
    ensures x in apps && x.archived == flag ==> x in SetArchived(apps, id, flag)
  {
    var r := SetArchived(apps, id, flag);
    if x in r && x.archived != flag {
      var i :| 0 <= i < |r| && r[i] == x;
      assert apps[i] == x;
    }
    if x in apps && (x.archived == flag || x.id != id) {
      var i :| 0 <= i < |apps| && apps[i] == x;
      assert r[i] == x;
    }
  }

  /** After archiving `id`, the active tab holds exactly the active appointments with other ids,
      and every appointment already archived stays in the archived tab. */
  lemma ArchiveLeavesActiveTab(apps: seq<Appointment>, id: string, x: Appointment)
    ensures x in Active(SetArchived(apps, id, true)) <==> x in Active(apps) && x.id != id
    ensures x in Archived(apps) ==> x in Archived(SetArchived(apps, id, true))
  {
    TabsAfterSetArchived(apps, id, true, x);
    ActiveMembers(apps);
    ActiveMembers(SetArchived(apps, id, true));
    ArchivedMembers(apps);
    ArchivedMembers(SetArchived(apps, id, true));
  }

  /** After restoring `id`, the archived tab holds exactly the archived appointments with other ids,
      and every active appointment stays in the active tab. */
  lemma UnarchiveLeavesArchivedTab(apps: seq<Appointment>, id: string, x: Appointment)
    ensures x in Archived(SetArchived(apps, id, false)) <==> x in Archived(apps) && x.id != id
    ensures x in Active(apps) ==> x in Active(SetArchived(apps, id, false))
  {
    TabsAfterSetArchived(apps, id, false, x);
    ActiveMembers(apps);
    ActiveMembers(SetArchived(apps, id, false));
    ArchivedMembers(apps);
    ArchivedMembers(SetArchived(apps, id, false));
  }

  /** Rescheduling moves nothing between the tabs: each tab after the edit is the old tab, edited. */
  lemma {:induction false} ApplyEditKeepsTabs(apps: seq<Appointment>, id: string, form: EditForm)
    ensures Active(ApplyEdit(apps, id, form)) == ApplyEdit(Active(apps), id, form)
    ensures Archived(ApplyEdit(apps, id, form)) == ApplyEdit(Archived(apps), id, form)
  {
    if apps != [] {
      ApplyEditKeepsTabs(apps[1..], id, form);
      var r := ApplyEdit(apps, id, form);
      assert r[1..] == ApplyEdit(apps[1..], id, form);
    }
  }

  /** The page's local state: the appointment list, the appointment being edited and the editor's inputs. */
  class Home {
    var appointments: seq<Appointment>
    var editingId: Option<string>
    var editForm: EditForm

    constructor ()
      ensures appointments == InitialAppointments()
      ensures editingId == None && editForm == EmptyEditForm
    {
      appointments := InitialAppointments();
      editingId := None;
      editForm := EmptyEditForm;
    }

    method Archive(id: string)
      modifies this`appointments
      ensures appointments == SetArchived(old(appointments), id, true)
    {
      appointments := SetArchived(appointments, id, true);
    }

    method Unarchive(id: string)
      modifies this`appointments
      ensures appointments == SetArchived(old(appointments), id, false)
    {
      appointments := SetArchived(appointments, id, false);
    }

    /** Opens the inline editor on one appointment, filled with its date and time. */
    method Edit(id: string, date: string, time: string)
      modifies this`editingId, this`editForm
      ensures editingId == Some(id) && editForm == EditForm(date, time)
    {
      editingId := Some(id);
      editForm := EditForm(date, time);
    }

    /** The `onChange` handlers of the editor's date and time inputs. */
    method SetEditForm(form: EditForm)
      modifies this`editForm
      ensures editForm == form
    {
      editForm := form;
    }

    /** Writes the editor's date and time into the appointment and closes the editor; the inputs keep their values. */
    method SaveEdit(id: string)
      modifies this`appointments, this`editingId
      ensures appointments == ApplyEdit(old(appointments), id, editForm)
      ensures editingId == None
    {
      appointments := ApplyEdit(appointments, id, editForm);
      editingId := None;
    }

    method CancelEdit()
      modifies this`editingId, this`editForm
      ensures editingId == None && editForm == EmptyEditForm
    {
      editingId := None;
      editForm := EmptyEditForm;
    }
  }
}
