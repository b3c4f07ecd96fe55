/** The dashboard's view of the client registry: the derived client groups
    behind its tiles, the detail lists a tile opens (by segment key), and the
    quick actions of those lists. "Now" is a parameter twice over: as the
    instant `nowMs` (milliseconds since 1970-01-01T00:00Z) for the expiry
    tests, and as the calendar date `nowLocal` the browser's clock shows for
    the month test. */
module Dashboard {
  import opened Wrappers
  import opened Seqs
  import opened Keyed
  import opened Text
  import opened CivilDate
  import opened Clients

  const MinutesPerDay: int := 24 * 60
  const MsPerMinute: int := 60 * 1000

  /** `new Date(c.expiryDate).getTime() < Date.now()`. A date that does not
      parse is `NaN`, and `NaN < now` is false. */
  predicate IsExpired(nowMs: int, c: Client)
  {
    ParseIso(c.expiryDate).Some? && EpochMs(ParseIso(c.expiryDate).value) < nowMs
  }

  /** Once expired, a client stays expired as time goes on; an unparsable expiry never expires. */
  lemma ExpiredStaysExpired(nowMs: int, laterMs: int, c: Client)
    requires nowMs <= laterMs
    ensures IsExpired(nowMs, c) ==> IsExpired(laterMs, c)
    ensures ParseIso(c.expiryDate).None? ==> !IsExpired(laterMs, c)
  {
  }

  function IsActive(): Client -> bool
  {
    (c: Client) => c.status == Active
  }

  function IsHotspot(): Client -> bool
  {
    (c: Client) => c.connType == Hotspot
  }

  function Expired(nowMs: int): Client -> bool
  {
    c => IsExpired(nowMs, c)
  }

  function IsPending(): Client -> bool
  {
    (c: Client) => c.status == Disabled || c.status == Inactive
  }

  function HasLeft(): Client -> bool
  {
    (c: Client) => c.status == Inactive
  }

  /** The intended month test: the join date names the month and year of `nowLocal`. */
  predicate JoinedIn(nowLocal: Date, c: Client)
  {
    ParseIso(c.joinDate).Some?
    && ParseIso(c.joinDate).value.year == nowLocal.year
    && ParseIso(c.joinDate).value.month == nowLocal.month
  }

  function JoinedThisMonth(nowLocal: Date): Client -> bool
  {
    c => JoinedIn(nowLocal, c)
  }

  function JoinedThisMonthAsWritten(nowLocal: Date, offsetMinutes: int): Client -> bool
    requires -MinutesPerDay < offsetMinutes < MinutesPerDay
  {
    c => JoinedInAsWritten(nowLocal, offsetMinutes, c)
  }

  /** `activeClients`, whose length is the "active" tile. */
  function ActiveClients(clients: seq<Client>): (r: seq<Client>)
    ensures IsSubseq(r, clients)
    ensures forall c :: c in r <==> c in clients && c.status == Active
  {
    Filter(clients, IsActive())
  }

  /** `hotspotClients`, whose length is the "hotspot" tile. */
  function HotspotClients(clients: seq<Client>): (r: seq<Client>)
    ensures IsSubseq(r, clients)
    ensures forall c :: c in r <==> c in clients && c.connType == Hotspot
  {
    Filter(clients, IsHotspot())
  }

  /** `expiredClients`, whose length is the "expired" tile. */
  function ExpiredClients(clients: seq<Client>, nowMs: int): (r: seq<Client>)
    ensures IsSubseq(r, clients)
    ensures forall c :: c in r <==> c in clients && IsExpired(nowMs, c)
  {
    Filter(clients, Expired(nowMs))
  }

  /** `pendingClients`, whose length is the "pending" tile: Disabled or Inactive. */
  function PendingClients(clients: seq<Client>): (r: seq<Client>)
    ensures IsSubseq(r, clients)
    ensures forall c :: c in r <==> c in clients && (c.status == Disabled || c.status == Inactive)
  {
    Filter(clients, IsPending())
  }

  /** The detail lists a tile can open; `Everyone` stands for every key the switch does not name. */
  datatype SegmentKind =
    | JoinedMonth | ActiveNow | HotspotUsers | ExpiredTotal | ExpiredHotspot | Pending | Left | Everyone

  /** The keys the switch names. */
  const SegmentKeys: seq<string> :=
    ["joined_month", "active_now", "hotspot", "expired_total", "expired_hotspot", "pending", "left"]

  /** The case of the switch in `getFilteredData` that a key selects. */
  function KindOf(key: string): (k: SegmentKind)
    ensures k == Everyone <==> key !in SegmentKeys
  {
    match key
    case "joined_month" => JoinedMonth
    case "active_now" => ActiveNow
    case "hotspot" => HotspotUsers
    case "expired_total" => ExpiredTotal
    case "expired_hotspot" => ExpiredHotspot
    case "pending" => Pending
    case "left" => Left
    case _ => Everyone
  }

  /** The list a case of the switch returns, under a clock `offsetMinutes` ahead of UTC. */
  function SegmentOf(kind: SegmentKind, clients: seq<Client>, nowMs: int, nowLocal: Date, offsetMinutes: int): (r: seq<Client>)
    requires -MinutesPerDay < offsetMinutes < MinutesPerDay
    ensures IsSubseq(r, clients) && |r| <= |clients|
    ensures kind == Everyone ==> r == clients
  {
    SubseqRefl(clients);
    match kind
    case JoinedMonth => Filter(clients, JoinedThisMonthAsWritten(nowLocal, offsetMinutes))
    case ActiveNow => ActiveClients(clients)
    case HotspotUsers => HotspotClients(clients)
    case ExpiredTotal => ExpiredClients(clients, nowMs)
    case ExpiredHotspot => Filter(clients, Both(IsHotspot(), Expired(nowMs)))
    case Pending => PendingClients(clients)
    case Left => Filter(clients, HasLeft())
    case Everyone => clients
  }

  /** `getFilteredData(key)`: the detail list a dashboard tile opens. Any other
      key (such as `joined_last_month` or `active_month`) gives every client. */
  function FilteredData(key: string, clients: seq<Client>, nowMs: int, nowLocal: Date, offsetMinutes: int): (r: seq<Client>)
    requires -MinutesPerDay < offsetMinutes < MinutesPerDay
    ensures IsSubseq(r, clients) && |r| <= |clients|
    ensures key !in SegmentKeys ==> r == clients
  {
    SegmentOf(KindOf(key), clients, nowMs, nowLocal, offsetMinutes)
  }

  /** The "joined last month" and "active this month" tiles open the whole list. */
  lemma UnlistedKeysShowAll(clients: seq<Client>, nowMs: int, nowLocal: Date, offsetMinutes: int)
    requires -MinutesPerDay < offsetMinutes < MinutesPerDay
    ensures FilteredData("joined_last_month", clients, nowMs, nowLocal, offsetMinutes) == clients
    ensures FilteredData("active_month", clients, nowMs, nowLocal, offsetMinutes) == clients
  {
    assert KindOf("joined_last_month") == Everyone;
    assert KindOf("active_month") == Everyone;
  }

  /** The expired-hotspot list is the expired clients of the hotspot list, in order:
      exactly the clients that are both Hotspot and expired. */
  lemma ExpiredHotspotExact(clients: seq<Client>, nowMs: int, nowLocal: Date, offsetMinutes: int)
    requires -MinutesPerDay < offsetMinutes < MinutesPerDay
    ensures SegmentOf(ExpiredHotspot, clients, nowMs, nowLocal, offsetMinutes) == Filter(HotspotClients(clients), Expired(nowMs))
    ensures forall c :: c in SegmentOf(ExpiredHotspot, clients, nowMs, nowLocal, offsetMinutes)
                    <==> c in clients && c.connType == Hotspot && IsExpired(nowMs, c)
  {
    FilterBoth(clients, IsHotspot(), Expired(nowMs));
  }

  /** Every client that has left is pending, and the order is kept. */
  lemma LeftWithinPending(clients: seq<Client>, nowMs: int, nowLocal: Date, offsetMinutes: int)
    requires -MinutesPerDay < offsetMinutes < MinutesPerDay
    ensures IsSubseq(SegmentOf(Left, clients, nowMs, nowLocal, offsetMinutes), SegmentOf(Pending, clients, nowMs, nowLocal, offsetMinutes))
  {
    LeftImpliesPending();
    LeftAndPendingSegments(clients, nowMs, nowLocal, offsetMinutes);
    FilterStrengthen(clients, HasLeft(), IsPending());
  }

  lemma LeftAndPendingSegments(clients: seq<Client>, nowMs: int, nowLocal: Date, offsetMinutes: int)
    requires -MinutesPerDay < offsetMinutes < MinutesPerDay
    ensures SegmentOf(Left, clients, nowMs, nowLocal, offsetMinutes) == Filter(clients, HasLeft())
    ensures SegmentOf(Pending, clients, nowMs, nowLocal, offsetMinutes) == Filter(clients, IsPending())
  {
  }

  lemma LeftImpliesPending()
    ensures forall c :: HasLeft()(c) ==> IsPending()(c)
  {
  }

  /** The joined-this-month list holds exactly the clients whose join date passes
      the code's local-time month test. */
  lemma JoinedMonthExact(clients: seq<Client>, nowMs: int, nowLocal: Date, offsetMinutes: int)
    requires -MinutesPerDay < offsetMinutes < MinutesPerDay
    ensures forall c :: c in SegmentOf(JoinedMonth, clients, nowMs, nowLocal, offsetMinutes)
                    <==> c in clients && JoinedInAsWritten(nowLocal, offsetMinutes, c)
  {
  }

  /** The joined-this-month list as intended: the clients whose join date names the current month. */
  function IntendedJoinedMonth(clients: seq<Client>, nowLocal: Date): (r: seq<Client>)
    ensures IsSubseq(r, clients)
    ensures forall c :: c in r <==> c in clients && JoinedIn(nowLocal, c)
  {
    Filter(clients, JoinedThisMonth(nowLocal))
  }

  /** East of UTC (Dhaka included) the list the code builds is the intended one. */
  lemma JoinedMonthEast(clients: seq<Client>, nowMs: int, nowLocal: Date, offsetMinutes: int)
    requires 0 <= offsetMinutes < MinutesPerDay
    ensures SegmentOf(JoinedMonth, clients, nowMs, nowLocal, offsetMinutes) == IntendedJoinedMonth(clients, nowLocal)
  {
    forall c: Client
      ensures JoinedThisMonthAsWritten(nowLocal, offsetMinutes)(c) == JoinedThisMonth(nowLocal)(c)
    {
      JoinedAsWrittenAgreesEast(nowLocal, offsetMinutes, c);
    }
    FilterExt(clients, JoinedThisMonthAsWritten(nowLocal, offsetMinutes), JoinedThisMonth(nowLocal));
  }

  /** West of UTC the code's list leaves out a client who joined on the 1st of the
      current month, whom the intended list holds. */
  lemma JoinedMonthMissesWest(clients: seq<Client>, nowMs: int, nowLocal: Date, offsetMinutes: int, c: Client)
    requires -MinutesPerDay < offsetMinutes < 0
    requires c in clients && ParseIso(c.joinDate) == Some(Date(nowLocal.year, nowLocal.month, 1))
    ensures c in IntendedJoinedMonth(clients, nowLocal)
    ensures c !in SegmentOf(JoinedMonth, clients, nowMs, nowLocal, offsetMinutes)
  {
    FirstOfMonthMissedWest(nowLocal, offsetMinutes, c);
  }

  /** The calendar date shown, at midnight UTC of `d`, by a clock `offsetMinutes`
      ahead of UTC (`-getTimezoneOffset()`; +360 in Dhaka, -300 in New York). */
  function LocalDateOf(d: Date, offsetMinutes: int): (r: Date)
    requires IsCalendarDate(d) && -MinutesPerDay < offsetMinutes < MinutesPerDay
    ensures IsCalendarDate(r)
    ensures EpochMs(r) <= EpochMs(d) + offsetMinutes * MsPerMinute < EpochMs(r) + MsPerDay
  {
    OffsetWithinDay(offsetMinutes);
    if offsetMinutes < 0 then
      EpochMsShift(d, PrevDay(d), -1);
      PrevDay(d)
    else d
  }

  /** An offset of less than a day, in milliseconds. */
  lemma OffsetWithinDay(offsetMinutes: int)
    requires -MinutesPerDay < offsetMinutes < MinutesPerDay
    ensures -MsPerDay < offsetMinutes * MsPerMinute < MsPerDay
    ensures offsetMinutes < 0 ==> offsetMinutes * MsPerMinute < 0
    ensures offsetMinutes >= 0 ==> offsetMinutes * MsPerMinute >= 0
  {
  }

  /** The month test as the dashboard writes it: the ISO join date is read as
      midnight UTC, and its month and year are then taken in local time. */
  predicate JoinedInAsWritten(nowLocal: Date, offsetMinutes: int, c: Client)
    requires -MinutesPerDay < offsetMinutes < MinutesPerDay
  {
    ParseIso(c.joinDate).Some?
    && LocalDateOf(ParseIso(c.joinDate).value, offsetMinutes).year == nowLocal.year
    && LocalDateOf(ParseIso(c.joinDate).value, offsetMinutes).month == nowLocal.month
  }

  /** East of UTC (Dhaka included) the written test and the intended one agree. */
  lemma JoinedAsWrittenAgreesEast(nowLocal: Date, offsetMinutes: int, c: Client)
    requires 0 <= offsetMinutes < MinutesPerDay
    ensures JoinedInAsWritten(nowLocal, offsetMinutes, c) <==> JoinedIn(nowLocal, c)
  {
  }

  /** West of UTC the code's test counts a client in the current month exactly when
      the join date lies in it after its 1st, or is the 1st of the month that follows. */
  lemma JoinedAsWrittenWest(nowLocal: Date, offsetMinutes: int, c: Client)
    requires -MinutesPerDay < offsetMinutes < 0
    requires 1 <= nowLocal.month <= 12
    ensures JoinedInAsWritten(nowLocal, offsetMinutes, c) <==>
              ParseIso(c.joinDate).Some? &&
              var d := ParseIso(c.joinDate).value;
              || (d.day > 1 && d.year == nowLocal.year && d.month == nowLocal.month)
              || (d.day == 1 && if nowLocal.month == 12 then d.year == nowLocal.year + 1 && d.month == 1
                                else d.year == nowLocal.year && d.month == nowLocal.month + 1)
  {
    if ParseIso(c.joinDate).Some? {
      var d := ParseIso(c.joinDate).value;
      assert LocalDateOf(d, offsetMinutes) == PrevDay(d);
    }
  }

  /** West of UTC a client who joined on the first of the current month is never
      counted: midnight UTC of the first is still the previous month locally. */
  lemma FirstOfMonthMissedWest(nowLocal: Date, offsetMinutes: int, c: Client)
    requires -MinutesPerDay < offsetMinutes < 0
    requires ParseIso(c.joinDate) == Some(Date(nowLocal.year, nowLocal.month, 1))
    ensures JoinedIn(nowLocal, c) && !JoinedInAsWritten(nowLocal, offsetMinutes, c)
  {
    var d := Date(nowLocal.year, nowLocal.month, 1);
    var p := LocalDateOf(d, offsetMinutes);
    assert p == PrevDay(d);
    assert p.month != nowLocal.month || p.year != nowLocal.year;
  }

  /** "2024-06-01" reads back as the first of June 2024. */
  lemma ParseJuneFirst()
    ensures ParseIso("2024-06-01") == Some(Date(2024, 6, 1))
  {
    FormatJun1();
    ParseFormatIso(Date(2024, 6, 1));
  }

  /** Joined 2024-06-01, seen on 2024-06-15 at UTC-5: not counted in June. */
  lemma JoinedAsWrittenMissesFirstDay()
    ensures var c := Client("1", "", "", "", "", "", PPPoE, "", Active, 0, "2024-06-01", "");
            JoinedIn(Date(2024, 6, 15), c) && !JoinedInAsWritten(Date(2024, 6, 15), -300, c)
  {
    ParseJuneFirst();
    var c := Client("1", "", "", "", "", "", PPPoE, "", Active, 0, "2024-06-01", "");
    FirstOfMonthMissedWest(Date(2024, 6, 15), -300, c);
  }

  /** What a quick renewal did. */
  datatype QuickRenewOutcome =
    | UnknownClient              // no client has the id: the handler returns at once
    | QuickRenewed(expiry: string)
    | QuickRenewFailed(error: DateError)

  /** The registry as the dashboard updates it, through the shared setter. */
  class DashboardState {
    var clients: seq<Client>

    constructor (clients: seq<Client>)
      ensures this.clients == clients
    {
      this.clients := clients;
    }

    /** Saves the dashboard's edit dialog: matching ids take the edited record. */
    method UpdateClient(updated: Client)
      modifies this
      ensures clients == ReplaceClient(old(clients), updated)
    {
      clients := ReplaceClient(clients, updated);
    }

    /** The quick suspend button, given the status the list shows for the client. */
    method QuickSuspend(id: string, current: Status)
      modifies this
      ensures clients == SetStatus(old(clients), id, SuspendToggled(current))
    {
      clients := SetStatus(clients, id, SuspendToggled(current));
    }

    /** Extends the first client with `id` by 30 days from its expiry date and
        writes that date, with status Active, to every client with `id`. */
    method QuickRenew(id: string) returns (r: QuickRenewOutcome)
      modifies this
      ensures FindClient(old(clients), id).None? ==> r == UnknownClient
      ensures FindClient(old(clients), id).Some? ==>
                match ShiftIsoDate(FindClient(old(clients), id).value.expiryDate, RenewalPeriod)
                case Ok(e) => r == QuickRenewed(e)
                case Err(x) => r == QuickRenewFailed(x)
      ensures r.QuickRenewed? ==> clients == RenewClient(old(clients), id, r.expiry)
      ensures !r.QuickRenewed? ==> clients == old(clients)
    {
      var found := FindClient(clients, id);
      if found.None? {
        return UnknownClient;
      }
      match ShiftIsoDate(found.value.expiryDate, RenewalPeriod)
      case Err(x) =>
        r := QuickRenewFailed(x);
      case Ok(e) =>
        clients := RenewClient(clients, id, e);
        r := QuickRenewed(e);
    }
  }
}
