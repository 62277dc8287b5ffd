/**
 * The two tables the bot keeps: conversation sessions (one per phone number)
 * and bookings. A session is an object whose fields the handlers assign in
 * place; the bookings table is an object holding the sequence of rows, and
 * an attribute write on a row is the replacement of that row.
 */
module Store {
  import opened Wrappers
  import opened Text
  import opened Clock
  import opened Records

  /** The conversation state machine's states. */
  datatype BookingState =
    | Idle | Collecting | Confirming | PaymentPending | CancelConfirm
    | RescheduleCollecting | RescheduleConfirm

  /**
   * A session column that the code reads with `int(...)`: never written,
   * written as text (`str(n)`), as a Python `bool`, or as an `int`.
   */
  datatype Stored = Unset | Text(s: string) | Flag(b: bool) | Num(n: int)

  /** A snapshot of every session field. Text fields use "" for `None`. */
  datatype SessionView = SessionView(
    sessionId: string,
    state: BookingState,
    lastQuestion: Option<Field>,
    pendingService: string,
    pendingDate: Option<Day>,
    pendingTime: string,
    pendingBookingId: string,
    rescheduleTargetId: string,
    rescheduleNewDate: Option<Day>,
    rescheduleNewTime: string,
    updatedAt: Option<int>,
    failCount: Stored,
    handoffOffered: Stored,
    failureCount: Stored,
    expiredLastTurn: bool,
    expiredFromState: Option<BookingState>,
    processedIds: seq<string>,
    channel: string,
    lastReminderBookingId: string)

  /** The most message ids a session remembers. */
  const MaxProcessedIds := 20

  /**
   * The session invariant: the pending and proposed times have the shape the
   * time normaliser produces, the remembered message ids are bounded, and a
   * proposal awaiting its yes has a date and a valid "HH:MM" time.
   */
  predicate ViewValid(v: SessionView) {
    (v.pendingTime == "" || TimeText(v.pendingTime))
    && (v.rescheduleNewTime == "" || TimeText(v.rescheduleNewTime))
    && |v.processedIds| <= MaxProcessedIds
    && (v.state == RescheduleConfirm ==> v.rescheduleNewDate.Some? && IsHhMm(v.rescheduleNewTime))
  }

  class Session {
    var sessionId: string
    var state: BookingState
    var lastQuestion: Option<Field>
    var pendingService: string
    var pendingDate: Option<Day>
    var pendingTime: string
    var pendingBookingId: string
    var rescheduleTargetId: string
    var rescheduleNewDate: Option<Day>
    var rescheduleNewTime: string
    var updatedAt: Option<int>
    var failCount: Stored
    var handoffOffered: Stored
    var failureCount: Stored
    var expiredLastTurn: bool
    var expiredFromState: Option<BookingState>
    var processedIds: seq<string>
    var channel: string
    var lastReminderBookingId: string

    function View(): SessionView
      reads this
    {
      SessionView(sessionId, state, lastQuestion, pendingService, pendingDate, pendingTime,
        pendingBookingId, rescheduleTargetId, rescheduleNewDate, rescheduleNewTime, updatedAt,
        failCount, handoffOffered, failureCount, expiredLastTurn, expiredFromState,
        processedIds, channel, lastReminderBookingId)
    }

    predicate Valid()
      reads this
    {
      ViewValid(View())
    }

    /**
     * A session created for a new phone number: IDLE with no processed ids.
     * `updatedAt` takes the column default, an instant fixed when the
     * program was loaded.
     */
    constructor (id: string, loadedAt: int)
      ensures View() == SessionView(id, Idle, None, "", None, "", "", "", None, "", Some(loadedAt),
        Unset, Unset, Unset, false, None, [], "", "")
      ensures Valid()
    {
      sessionId := id;
      state := Idle;
      lastQuestion := None;
      pendingService := "";
      pendingDate := None;
      pendingTime := "";
      pendingBookingId := "";
      rescheduleTargetId := "";
      rescheduleNewDate := None;
      rescheduleNewTime := "";
      updatedAt := Some(loadedAt);
      failCount := Unset;
      handoffOffered := Unset;
      failureCount := Unset;
      expiredLastTurn := false;
      expiredFromState := None;
      processedIds := [];
      channel := "";
      lastReminderBookingId := "";
    }
  }

  // ---------------------------------------------------------------------
  // The bookings table
  // ---------------------------------------------------------------------

  predicate UniqueIds(rows: seq<Booking>) {
    forall i, j :: 0 <= i < |rows| && 0 <= j < |rows| && rows[i].id == rows[j].id ==> i == j
  }

  /** The table invariant: the primary key is unique and every stored time is a valid "HH:MM". */
  predicate RowsValid(rows: seq<Booking>) {
    UniqueIds(rows) && forall i :: 0 <= i < |rows| ==> IsHhMm(rows[i].time)
  }

  class BookingTable {
    var rows: seq<Booking>

    predicate Valid()
      reads this
    {
      RowsValid(rows)
    }

    constructor (initial: seq<Booking>)
      requires RowsValid(initial)
      ensures rows == initial && Valid()
    {
      rows := initial;
    }
  }

  /** Replacing a row by one with the same id and a valid time keeps the table valid. */
  lemma UpdateKeepsValid(rows: seq<Booking>, i: int, b: Booking)
    requires RowsValid(rows) && 0 <= i < |rows|
    requires b.id == rows[i].id && IsHhMm(b.time)
    ensures RowsValid(rows[i := b])
  {
  }

  /** Appending a row with a fresh id and a valid time keeps the table valid. */
  lemma AppendKeepsValid(rows: seq<Booking>, b: Booking)
    requires RowsValid(rows)
    requires forall i :: 0 <= i < |rows| ==> rows[i].id != b.id
    requires IsHhMm(b.time)
    ensures RowsValid(rows + [b])
  {
  }

  // ---------------------------------------------------------------------
  // Queries (`db.query(Booking).filter(...).first()`)
  // ---------------------------------------------------------------------

  /** The first row, in table order, from index `k` on, that satisfies `p`. */
  function FirstWhere(rows: seq<Booking>, p: Booking -> bool, k: nat): (r: Option<nat>)
    requires k <= |rows|
    ensures r.Some? ==> k <= r.value < |rows| && p(rows[r.value])
    ensures r.Some? ==> forall j :: k <= j < r.value ==> !p(rows[j])
    ensures r.None? ==> forall j :: k <= j < |rows| ==> !p(rows[j])
    decreases |rows| - k
  {
    if k == |rows| then None
    else if p(rows[k]) then Some(k)
    else FirstWhere(rows, p, k + 1)
  }

  /** The first PENDING row of this phone number. */
  function FindPending(rows: seq<Booking>, phone: string): (r: Option<nat>)
    ensures r.Some? ==> r.value < |rows| && rows[r.value].phone == phone && rows[r.value].status == Pending
    ensures r.Some? ==> forall j :: 0 <= j < r.value ==> !(rows[j].phone == phone && rows[j].status == Pending)
    ensures r.None? ==> forall j :: 0 <= j < |rows| ==> !(rows[j].phone == phone && rows[j].status == Pending)
  {
    FirstWhere(rows, (b: Booking) => b.phone == phone && b.status == Pending, 0)
  }

  /** The CONFIRMED row of this phone number with this id. */
  function FindConfirmed(rows: seq<Booking>, phone: string, id: string): (r: Option<nat>)
    ensures r.Some? ==> r.value < |rows| && rows[r.value].phone == phone && rows[r.value].id == id
                        && rows[r.value].status == Confirmed
    ensures r.None? ==> forall j :: 0 <= j < |rows| ==>
                        !(rows[j].phone == phone && rows[j].id == id && rows[j].status == Confirmed)
  {
    FirstWhere(rows, (b: Booking) => b.phone == phone && b.id == id && b.status == Confirmed, 0)
  }

  predicate HasConfirmed(rows: seq<Booking>, phone: string) {
    exists i :: 0 <= i < |rows| && rows[i].phone == phone && rows[i].status == Confirmed
  }

  /**
   * `order_by(created_at.desc()).first()` among the rows satisfying `p`
   * from index `k` on: a row with the greatest creation instant, the
   * earliest in table order among equals.
   */
  function Latest(rows: seq<Booking>, p: Booking -> bool, k: nat): (r: Option<nat>)
    requires k <= |rows|
    ensures r.Some? ==> k <= r.value < |rows| && p(rows[r.value])
    ensures r.Some? ==> forall j :: k <= j < |rows| && p(rows[j]) ==> rows[j].createdAt <= rows[r.value].createdAt
    ensures r.None? <==> forall j :: k <= j < |rows| ==> !p(rows[j])
    decreases |rows| - k
  {
    if k == |rows| then None
    else
      var rest := Latest(rows, p, k + 1);
      if !p(rows[k]) then rest
      else if rest.Some? && rows[rest.value].createdAt > rows[k].createdAt then rest
      else Some(k)
  }

  /** The newest CONFIRMED booking of this phone number. */
  function LatestConfirmed(rows: seq<Booking>, phone: string): (r: Option<nat>)
    ensures r.Some? ==> r.value < |rows| && rows[r.value].phone == phone && rows[r.value].status == Confirmed
    ensures r.Some? ==> forall j :: 0 <= j < |rows| && rows[j].phone == phone && rows[j].status == Confirmed ==>
                          rows[j].createdAt <= rows[r.value].createdAt
    ensures r.None? <==> !HasConfirmed(rows, phone)
  {
    Latest(rows, (b: Booking) => b.phone == phone && b.status == Confirmed, 0)
  }

  /** The newest booking of this phone number, whatever its status. */
  function LatestBooking(rows: seq<Booking>, phone: string): (r: Option<nat>)
    ensures r.Some? ==> r.value < |rows| && rows[r.value].phone == phone
    ensures r.Some? ==> forall j :: 0 <= j < |rows| && rows[j].phone == phone ==> rows[j].createdAt <= rows[r.value].createdAt
    ensures r.None? <==> forall j :: 0 <= j < |rows| ==> rows[j].phone != phone
  {
    Latest(rows, (b: Booking) => b.phone == phone, 0)
  }

  /** Rows `i` of `a` and `b` agree except where `changed` allows. */
  predicate SameRowsExcept(a: seq<Booking>, b: seq<Booking>, changed: set<nat>) {
    |a| == |b| && forall i :: 0 <= i < |a| && i !in changed ==> a[i] == b[i]
  }
}
