/** The appointments panel: a list of appointments, an upcoming/past tab, and cancellation. */
module Appointments {
  import opened Seqs

  datatype Status = Upcoming | Completed | Cancelled

  datatype Appointment = Appointment(
    id: int, kind: string, doctor: string, date: string, time: string, location: string, status: Status)

  datatype Tab = UpcomingTab | PastTab

  /** The appointments the panel starts with. */
  const InitialAppointments: seq<Appointment> := [
    Appointment(1, "Therapy Session", "Dr. Sarah Johnson", "May 15, 2023", "10:30 AM", "Online", Upcoming),
    Appointment(2, "Initial Consultation", "Dr. Michael Chen", "May 20, 2023", "2:00 PM", "Main Clinic, Room 304", Upcoming),
    Appointment(3, "Follow-up Session", "Dr. Sarah Johnson", "June 5, 2023", "11:00 AM", "Online", Upcoming),
    Appointment(4, "Group Therapy", "Dr. Emily Watson", "June 12, 2023", "6:00 PM", "Community Center", Upcoming),
    Appointment(5, "Therapy Session", "Dr. Sarah Johnson", "April 15, 2023", "10:30 AM", "Online", Completed),
    Appointment(6, "Medication Review", "Dr. Robert Martinez", "April 3, 2023", "9:15 AM", "Main Clinic, Room 210", Completed),
    Appointment(7, "Assessment", "Dr. Lisa Patel", "March 28, 2023", "3:30 PM", "North Branch Office", Cancelled)
  ]

  /** The list after cancelling `id`: every appointment with that id becomes cancelled,
      every other one is left as it was, in the same positions. */
  function Cancel(s: seq<Appointment>, id: int): (r: seq<Appointment>)
    ensures |r| == |s|
    ensures forall i :: 0 <= i < |s| && s[i].id == id ==> r[i] == s[i].(status := Cancelled)
    ensures forall i :: 0 <= i < |s| && s[i].id != id ==> r[i] == s[i]
    decreases |s|
  {
    if s == [] then []
    else [if s[0].id == id then s[0].(status := Cancelled) else s[0]] + Cancel(s[1..], id)
  }

  /** Whether an appointment belongs in the given tab's list. */
  predicate InTab(a: Appointment, tab: Tab)
  {
    if tab == UpcomingTab then a.status == Upcoming else a.status == Completed || a.status == Cancelled
  }

  /** The list a tab shows: the appointments that belong in it, in list order. */
  function Visible(s: seq<Appointment>, tab: Tab): seq<Appointment>
  {
    Filter(s, a => InTab(a, tab))
  }

  /** A card offers the Cancel button only for an upcoming appointment. */
  predicate OffersCancel(a: Appointment)
  {
    a.status == Upcoming
  }

  /** The upcoming list is exactly the upcoming appointments and the past list exactly the
      completed or cancelled ones; each keeps list order, and together they hold every
      appointment exactly once. */
  lemma ViewsPartition(s: seq<Appointment>)
    ensures forall a :: a in Visible(s, UpcomingTab) <==> a in s && a.status == Upcoming
    ensures forall a :: a in Visible(s, PastTab) <==> a in s && (a.status == Completed || a.status == Cancelled)
    ensures IsSubsequence(Visible(s, UpcomingTab), s) && IsSubsequence(Visible(s, PastTab), s)
    ensures multiset(Visible(s, UpcomingTab)) + multiset(Visible(s, PastTab)) == multiset(s)
    ensures |Visible(s, UpcomingTab)| + |Visible(s, PastTab)| == |s|
  {
    var up, past := a => InTab(a, UpcomingTab), a => InTab(a, PastTab);
    forall a ensures a in Visible(s, UpcomingTab) <==> a in s && a.status == Upcoming {
      if a in s {
        var i :| 0 <= i < |s| && s[i] == a;
      }
      if a in Visible(s, UpcomingTab) {
        var i :| 0 <= i < |Visible(s, UpcomingTab)| && Visible(s, UpcomingTab)[i] == a;
      }
    }
    forall a ensures a in Visible(s, PastTab) <==> a in s && (a.status == Completed || a.status == Cancelled) {
      if a in s {
        var i :| 0 <= i < |s| && s[i] == a;
      }
      if a in Visible(s, PastTab) {
        var i :| 0 <= i < |Visible(s, PastTab)| && Visible(s, PastTab)[i] == a;
      }
    }
    FilterIsSubsequence(s, up);
    FilterIsSubsequence(s, past);
    FilterPartition(s, up, past);
  }

  /** The upcoming tab offers Cancel on every card it shows; the past tab on none. */
  lemma CancelOfferedOnlyInUpcoming(s: seq<Appointment>)
    ensures forall k :: 0 <= k < |Visible(s, UpcomingTab)| ==> OffersCancel(Visible(s, UpcomingTab)[k])
    ensures forall k :: 0 <= k < |Visible(s, PastTab)| ==> !OffersCancel(Visible(s, PastTab)[k])
  {
  }

  /** Cancelling an id no appointment has changes nothing. */
  lemma CancelAbsent(s: seq<Appointment>, id: int)
    requires forall i :: 0 <= i < |s| ==> s[i].id != id
    ensures Cancel(s, id) == s
  {
  }

  /** Cancelling the same id twice is cancelling it once. */
  lemma CancelIdempotent(s: seq<Appointment>, id: int)
    ensures Cancel(Cancel(s, id), id) == Cancel(s, id)
  {
  }

  /** After cancelling a present id, that appointment is in the past list and no
      appointment with that id is left in the upcoming list. */
  lemma CancelMovesToPast(s: seq<Appointment>, id: int, i: nat)
    requires i < |s| && s[i].id == id
    ensures Cancel(s, id)[i] in Visible(Cancel(s, id), PastTab)
    ensures forall a :: a in Visible(Cancel(s, id), UpcomingTab) ==> a.id != id
  {
    var r := Cancel(s, id);
    assert InTab(r[i], PastTab);
    var up := Visible(r, UpcomingTab);
    forall a | a in up ensures a.id != id {
      var k :| 0 <= k < |up| && up[k] == a;
      var j :| 0 <= j < |r| && r[j] == a;
    }
  }

  /** The panel's state: the tab, the list, and the tab switches scheduled with
      `setTimeout` that have not fired yet. */
  class AppointmentsPanel {
    var activeTab: Tab
    var appointments: seq<Appointment>
    var pendingSwitches: nat

    constructor ()
      ensures activeTab == UpcomingTab && appointments == InitialAppointments && pendingSwitches == 0
    {
      activeTab, appointments, pendingSwitches := UpcomingTab, InitialAppointments, 0;
    }

    /** The cards on screen. */
    function Shown(): seq<Appointment>
      reads this
    {
      Visible(appointments, activeTab)
    }

    /** The Upcoming or Past tab button. */
    method SelectTab(tab: Tab)
      modifies this
      ensures activeTab == tab && appointments == old(appointments) && pendingSwitches == old(pendingSwitches)
    {
      activeTab := tab;
    }

    /** `cancelAppointment(id)`: replace the list, and when the upcoming tab is active,
        schedule a switch to the past tab. */
    method CancelAppointment(id: int)
      modifies this
      ensures appointments == Cancel(old(appointments), id)
      ensures activeTab == old(activeTab)
      ensures pendingSwitches == old(pendingSwitches) + (if old(activeTab) == UpcomingTab then 1 else 0)
    {
      appointments := Cancel(appointments, id);
      if activeTab == UpcomingTab {
        pendingSwitches := pendingSwitches + 1;
      }
    }

    /** The Cancel button of the `k`-th card shown, which exists only on an upcoming card. */
    method ClickCancel(k: nat)
      requires k < |Shown()| && OffersCancel(Shown()[k])
      modifies this
      ensures appointments == Cancel(old(appointments), old(Shown()[k].id))
      ensures activeTab == old(activeTab)
      ensures pendingSwitches == old(pendingSwitches) + (if old(activeTab) == UpcomingTab then 1 else 0)
    {
      CancelAppointment(Shown()[k].id);
    }

    /** A scheduled switch fires: the past tab becomes active. */
    method SwitchTimerFires()
      requires pendingSwitches > 0
      modifies this
      ensures activeTab == PastTab && pendingSwitches == old(pendingSwitches) - 1
      ensures appointments == old(appointments)
    {
      activeTab := PastTab;
      pendingSwitches := pendingSwitches - 1;
    }
  }
}
