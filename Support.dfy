/** The support desk: customer tickets with a status the operator sets
    freely, the announcements shown to customers with an on/off flag, the
    ticket search and the counters above it. Dialog answers are parameters. */
module Support {
  import opened Seqs
  import opened Keyed
  import opened Text

  datatype TicketStatus = Open | Processing | Resolved
  datatype Priority = Urgent | Medium | Low
  datatype Category = InternetSlow | NoLink | BillingIssue | Technical | Other

  datatype SupportTicket = SupportTicket(
    id: string,
    clientId: string,
    clientName: string,
    subject: string,
    description: string,
    priority: Priority,
    status: TicketStatus,
    createdAt: string,
    category: Category)

  datatype AnnouncementType = Maintenance | Alert | News

  datatype Announcement = Announcement(
    id: string, title: string, message: string, kind: AnnouncementType, active: bool, createdAt: string)

  function TicketId(t: SupportTicket): string { t.id }
  function AnnouncementId(a: Announcement): string { a.id }

  const InitialTickets: seq<SupportTicket> := [
    SupportTicket("T-101", "1", "Abdur Rahim", "Internet very slow", "Getting only 1Mbps on a 5Mbps plan.",
                  Medium, Processing, "2024-06-20 10:30 AM", InternetSlow),
    SupportTicket("T-102", "3", "Siddikur Rahman", "No link / Red light",
                  "Since morning no connection. Router showing red light.",
                  Urgent, Open, "2024-06-21 08:15 AM", NoLink),
    SupportTicket("T-103", "2", "Karim Hossain", "Billing issue", "Paid via bKash but balance not updated.",
                  Low, Resolved, "2024-06-19 02:45 PM", BillingIssue)
  ]

  const InitialAnnouncements: seq<Announcement> := [
    Announcement("A-1", "Maintenance Alert", "Core router maintenance on Sunday 2AM to 4AM.", Maintenance, true, "2024-06-20"),
    Announcement("A-2", "Fiber Cut", "Fiber cut in Mirpur Area. Our team is working on it.", Alert, true, "2024-06-21")
  ]

  /** `updateTicketStatus`: the tickets with `id` take `st`, whatever status
      they had (a Resolved ticket can be reopened); nothing else changes. */
  function SetTicketStatus(tickets: seq<SupportTicket>, id: string, st: TicketStatus): (r: seq<SupportTicket>)
    ensures |r| == |tickets|
    ensures forall i :: 0 <= i < |r| && tickets[i].id == id ==> r[i] == tickets[i].(status := st)
    ensures forall i :: 0 <= i < |r| && tickets[i].id != id ==> r[i] == tickets[i]
  {
    UpdateWhere(tickets, TicketId, id, WithTicketStatus(st))
  }

  function WithTicketStatus(st: TicketStatus): SupportTicket -> SupportTicket
  {
    (t: SupportTicket) => t.(status := st)
  }

  /** Setting a status twice is setting it once. */
  lemma SetTicketStatusIdempotent(tickets: seq<SupportTicket>, id: string, st: TicketStatus)
    ensures SetTicketStatus(SetTicketStatus(tickets, id, st), id, st) == SetTicketStatus(tickets, id, st)
  {
    UpdateIdempotent(tickets, TicketId, id, WithTicketStatus(st));
  }

  /** Of two status changes the later one wins. */
  lemma SetTicketStatusLastWins(tickets: seq<SupportTicket>, id: string, a: TicketStatus, b: TicketStatus)
    ensures SetTicketStatus(SetTicketStatus(tickets, id, a), id, b) == SetTicketStatus(tickets, id, b)
  {
    UpdateCompose(tickets, TicketId, id, WithTicketStatus(a), WithTicketStatus(b), WithTicketStatus(b));
  }

  /** There is no transition guard: the Resolved seed ticket T-103 can be reopened. */
  lemma ReopenResolved()
    ensures InitialTickets[2].status == Resolved
    ensures SetTicketStatus(InitialTickets, "T-103", Open)[2].status == Open
  {
  }

  function FlipActive(): Announcement -> Announcement
  {
    (a: Announcement) => a.(active := !a.active)
  }

  /** `toggleAnnouncement`: the announcements with `id` switch on or off. */
  function ToggleAnnouncement(announcements: seq<Announcement>, id: string): (r: seq<Announcement>)
    ensures |r| == |announcements|
    ensures forall i :: 0 <= i < |r| && announcements[i].id == id ==>
              r[i] == announcements[i].(active := !announcements[i].active)
    ensures forall i :: 0 <= i < |r| && announcements[i].id != id ==> r[i] == announcements[i]
  {
    UpdateWhere(announcements, AnnouncementId, id, FlipActive())
  }

  lemma ToggleAnnouncementTwice(announcements: seq<Announcement>, id: string)
    ensures ToggleAnnouncement(ToggleAnnouncement(announcements, id), id) == announcements
  {
    UpdateInvolutive(announcements, AnnouncementId, id, FlipActive());
  }

  /** `deleteTicket`: drops the tickets with `id`, keeping the others in order. */
  function DeleteTicket(tickets: seq<SupportTicket>, id: string): (r: seq<SupportTicket>)
    ensures IsSubseq(r, tickets)
    ensures forall t :: t in r <==> t in tickets && t.id != id
    ensures (forall i :: 0 <= i < |tickets| ==> tickets[i].id != id) ==> r == tickets
  {
    RemoveKey(tickets, TicketId, id)
  }

  /** `ticketFilter`: `All` or one status. */
  datatype TicketFilter = AllTickets | OnlyStatus(status: TicketStatus)

  /** The status matches, and the client name (case-insensitive) or the ticket id contains the query. */
  predicate TicketMatches(filter: TicketFilter, query: string, t: SupportTicket)
  {
    && (filter.AllTickets? || t.status == filter.status)
    && (Contains(Lower(t.clientName), Lower(query)) || Contains(t.id, query))
  }

  function TicketMatcher(filter: TicketFilter, query: string): SupportTicket -> bool
  {
    t => TicketMatches(filter, query, t)
  }

  /** `filteredTickets`: the matching tickets in list order. */
  function FilteredTickets(tickets: seq<SupportTicket>, filter: TicketFilter, query: string): (r: seq<SupportTicket>)
    ensures IsSubseq(r, tickets)
    ensures forall t :: t in r <==> t in tickets && TicketMatches(filter, query, t)
    ensures filter == AllTickets && query == "" ==> r == tickets
  {
    assert query == "" ==> forall k :: 0 <= k < |tickets| ==> Contains(tickets[k].id, query);
    Filter(tickets, TicketMatcher(filter, query))
  }

  function HasStatus(st: TicketStatus): SupportTicket -> bool
  {
    (t: SupportTicket) => t.status == st
  }

  function IsUrgent(): SupportTicket -> bool
  {
    (t: SupportTicket) => t.priority == Urgent
  }

  datatype TicketStats = TicketStats(open: nat, processing: nat, urgent: nat)

  /** `stats`: the Open, Processing and Urgent counts. No ticket is counted as
      both Open and Processing, and a count is zero exactly when no ticket has its value. */
  function Stats(tickets: seq<SupportTicket>): (s: TicketStats)
    ensures s.open + s.processing <= |tickets|
    ensures s.urgent <= |tickets|
    ensures s.open == 0 <==> forall i :: 0 <= i < |tickets| ==> tickets[i].status != Open
    ensures s.processing == 0 <==> forall i :: 0 <= i < |tickets| ==> tickets[i].status != Processing
    ensures s.urgent == 0 <==> forall i :: 0 <= i < |tickets| ==> tickets[i].priority != Urgent
    ensures s.open == |set i | 0 <= i < |tickets| && tickets[i].status == Open|
    ensures s.processing == |set i | 0 <= i < |tickets| && tickets[i].status == Processing|
    ensures s.urgent == |set i | 0 <= i < |tickets| && tickets[i].priority == Urgent|
  {
    StatusIndices(tickets, Open);
    StatusIndices(tickets, Processing);
    UrgentIndices(tickets);
    FilterDisjoint(tickets, HasStatus(Open), HasStatus(Processing));
    CountAll(tickets, HasStatus(Open));
    CountAll(tickets, HasStatus(Processing));
    CountAll(tickets, IsUrgent());
    TicketStats(|Filter(tickets, HasStatus(Open))|, |Filter(tickets, HasStatus(Processing))|,
                |Filter(tickets, IsUrgent())|)
  }

  /** The count of a status is the number of positions holding a ticket with it. */
  lemma StatusIndices(tickets: seq<SupportTicket>, st: TicketStatus)
    ensures |Filter(tickets, HasStatus(st))| == |set i | 0 <= i < |tickets| && tickets[i].status == st|
  {
    CountIndices(tickets, HasStatus(st));
    assert PassingIndices(tickets, HasStatus(st)) == set i | 0 <= i < |tickets| && tickets[i].status == st;
  }

  /** The urgent count is the number of positions holding an Urgent ticket. */
  lemma UrgentIndices(tickets: seq<SupportTicket>)
    ensures |Filter(tickets, IsUrgent())| == |set i | 0 <= i < |tickets| && tickets[i].priority == Urgent|
  {
    CountIndices(tickets, IsUrgent());
    assert PassingIndices(tickets, IsUrgent()) == set i | 0 <= i < |tickets| && tickets[i].priority == Urgent;
  }

  /** Every ticket has exactly one of the three statuses. */
  lemma {:induction false} StatusPartition(tickets: seq<SupportTicket>)
    ensures |Filter(tickets, HasStatus(Open))| + |Filter(tickets, HasStatus(Processing))|
            + |Filter(tickets, HasStatus(Resolved))| == |tickets|
    decreases |tickets|
  {
    if tickets != [] {
      var t, rest := tickets[0], tickets[1..];
      assert tickets == [t] + rest;
      StatusPartition(rest);
      CountCons(t, rest, HasStatus(Open));
      CountCons(t, rest, HasStatus(Processing));
      CountCons(t, rest, HasStatus(Resolved));
    }
  }

  function NotUrgent(): SupportTicket -> bool
  {
    (t: SupportTicket) => t.priority != Urgent
  }

  /** The urgent counter and the non-urgent tickets make up the desk. */
  lemma UrgentPartition(tickets: seq<SupportTicket>)
    ensures Stats(tickets).urgent + |Filter(tickets, NotUrgent())| == |tickets|
  {
    CountComplement(tickets, IsUrgent(), NotUrgent());
  }

  /** With the Resolved tickets, the two counters account for every ticket. */
  lemma StatusCountsPartition(tickets: seq<SupportTicket>)
    ensures Stats(tickets).open + Stats(tickets).processing + |Filter(tickets, HasStatus(Resolved))| == |tickets|
  {
    StatusPartition(tickets);
  }

  /** The seed desk shows one open, one processing and one urgent ticket. */
  lemma InitialStats()
    ensures Stats(InitialTickets) == TicketStats(1, 1, 1)
  {
    var t := InitialTickets;
    assert t == [t[0], t[1], t[2]];
    CountThree(t[0], t[1], t[2], HasStatus(Open));
    CountThree(t[0], t[1], t[2], HasStatus(Processing));
    CountThree(t[0], t[1], t[2], IsUrgent());
  }

  /** The support desk's state. */
  class SupportDesk {
    var tickets: seq<SupportTicket>
    var announcements: seq<Announcement>

    /** The desk opens with the seed tickets and announcements. */
    constructor ()
      ensures tickets == InitialTickets && announcements == InitialAnnouncements
    {
      tickets := InitialTickets;
      announcements := InitialAnnouncements;
    }

    method UpdateTicketStatus(id: string, st: TicketStatus)
      modifies this
      ensures tickets == SetTicketStatus(old(tickets), id, st)
      ensures announcements == old(announcements)
    {
      tickets := SetTicketStatus(tickets, id, st);
    }

    method ToggleAnnouncementOf(id: string)
      modifies this
      ensures announcements == ToggleAnnouncement(old(announcements), id)
      ensures tickets == old(tickets)
    {
      announcements := ToggleAnnouncement(announcements, id);
    }

    /** Deletes the tickets with `id` once the operator confirms. */
    method Delete(id: string, confirmed: bool)
      modifies this
      ensures confirmed ==> tickets == DeleteTicket(old(tickets), id)
      ensures !confirmed ==> tickets == old(tickets)
      ensures announcements == old(announcements)
    {
      if confirmed {
        tickets := DeleteTicket(tickets, id);
      }
    }
  }
}
