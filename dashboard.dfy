/** The dashboard: it loads the stored list (seeding it on first use), counts the upcoming trips
    and cancels bookings by identifier. */
module DashboardPage {
  import opened Wrappers
  import opened Calendar
  import opened Records
  import opened Storage

  /** The record the dashboard stores when it finds the list empty. It was not written by the
      booking form, so it has no form fields. */
  function SeedBooking(createdAt: string): StoredBooking {
    StoredBooking("DA2024-001", "Elon", "Musk", "Mars Colony",
      Some(Date(2024, 12, 25)), Some(Date(2025, 9, 25)), "luxury", "Luxury", [],
      Confirmed, createdAt, 250000, "burj-khalifa", None)
  }

  /** A trip that still lies ahead: pending or confirmed. */
  predicate IsUpcoming(b: StoredBooking) {
    b.status == Pending || b.status == Confirmed
  }

  /** `bookings.filter(...)`: the upcoming records, in list order. */
  function FilterUpcoming(bs: seq<StoredBooking>): (r: seq<StoredBooking>)
    ensures |r| <= |bs|
    ensures forall b :: b in r <==> b in bs && IsUpcoming(b)
  {
    if bs == [] then []
    else (if IsUpcoming(bs[0]) then [bs[0]] else []) + FilterUpcoming(bs[1..])
  }

  /** Each upcoming record is kept as often as it occurs in the list, and no other record is kept. */
  lemma {:induction false} FilterUpcomingCounts(bs: seq<StoredBooking>)
    ensures forall b :: multiset(FilterUpcoming(bs))[b] == (if IsUpcoming(b) then multiset(bs)[b] else 0)
  {
    if bs != [] {
      assert bs == [bs[0]] + bs[1..];
      FilterUpcomingCounts(bs[1..]);
    }
  }

  /** Order is kept: the upcoming records of a concatenation are those of the first part followed
      by those of the second. */
  lemma {:induction false} FilterUpcomingAppend(xs: seq<StoredBooking>, ys: seq<StoredBooking>)
    ensures FilterUpcoming(xs + ys) == FilterUpcoming(xs) + FilterUpcoming(ys)
  {
    if xs == [] {
      assert xs + ys == ys;
    } else {
      var head := if IsUpcoming(xs[0]) then [xs[0]] else [];
      assert (xs + ys)[0] == xs[0] && (xs + ys)[1..] == xs[1..] + ys;
      assert FilterUpcoming(xs + ys) == head + FilterUpcoming(xs[1..] + ys);
      FilterUpcomingAppend(xs[1..], ys);
      assert FilterUpcoming(xs) == head + FilterUpcoming(xs[1..]);
    }
  }

  /** The "upcoming trips" figure. */
  function UpcomingCount(bs: seq<StoredBooking>): nat {
    |FilterUpcoming(bs)|
  }

  /** The body of the `map` in the cancel handler. */
  function CancelIfMatch(b: StoredBooking, id: string): StoredBooking {
    if b.id == id then b.(status := Cancelled) else b
  }

  /** `bookings.map(...)`: every record carrying `id` becomes cancelled. */
  function CancelById(bs: seq<StoredBooking>, id: string): seq<StoredBooking> {
    seq(|bs|, i requires 0 <= i < |bs| => CancelIfMatch(bs[i], id))
  }

  /** No two records share an identifier. */
  predicate DistinctIds(bs: seq<StoredBooking>) {
    forall i, j :: 0 <= i < j < |bs| ==> bs[i].id != bs[j].id
  }

  /** Cancelling keeps the length and the order of the list; a record with another identifier is
      left as it was, and a record with the identifier keeps every field but its status, which
      becomes cancelled. */
  lemma CancelShape(bs: seq<StoredBooking>, id: string)
    ensures |CancelById(bs, id)| == |bs|
    ensures forall i :: 0 <= i < |bs| && bs[i].id != id ==> CancelById(bs, id)[i] == bs[i]
    ensures forall i :: 0 <= i < |bs| && bs[i].id == id ==>
      CancelById(bs, id)[i].status == Cancelled && CancelById(bs, id)[i] == bs[i].(status := Cancelled)
  {
  }

  /** An identifier that no record carries leaves the list unchanged. */
  lemma CancelUnknownId(bs: seq<StoredBooking>, id: string)
    requires forall i :: 0 <= i < |bs| ==> bs[i].id != id
    ensures CancelById(bs, id) == bs
  {
  }

  /** Cancelling the same identifier twice is cancelling it once. */
  lemma CancelIdempotent(bs: seq<StoredBooking>, id: string)
    ensures CancelById(CancelById(bs, id), id) == CancelById(bs, id)
  {
  }

  /** The cancelled list is the head record, cancelled if it matches, before the cancelled tail. */
  lemma CancelSplit(bs: seq<StoredBooking>, id: string)
    requires bs != []
    ensures CancelById(bs, id) == [CancelIfMatch(bs[0], id)] + CancelById(bs[1..], id)
  {
  }

  /** Cancelling never increases the number of upcoming trips. */
  lemma {:induction false} CancelNeverIncreasesUpcoming(bs: seq<StoredBooking>, id: string)
    ensures UpcomingCount(CancelById(bs, id)) <= UpcomingCount(bs)
  {
    if bs != [] {
      var c := CancelById(bs, id);
      CancelSplit(bs, id);
      assert c[0] == CancelIfMatch(bs[0], id) && c[1..] == CancelById(bs[1..], id);
      CancelNeverIncreasesUpcoming(bs[1..], id);
    }
  }

  /** Cancelling an upcoming record takes one trip off the count at least. */
  lemma {:induction false} CancelUpcomingDecreases(bs: seq<StoredBooking>, k: nat)
    requires k < |bs| && IsUpcoming(bs[k])
    ensures UpcomingCount(CancelById(bs, bs[k].id)) < UpcomingCount(bs)
  {
    var id := bs[k].id;
    var c := CancelById(bs, id);
    CancelSplit(bs, id);
    assert c[0] == CancelIfMatch(bs[0], id) && c[1..] == CancelById(bs[1..], id);
    if k == 0 {
      CancelNeverIncreasesUpcoming(bs[1..], id);
    } else {
      assert bs[1..][k - 1] == bs[k];
      CancelUpcomingDecreases(bs[1..], k - 1);
    }
  }

  /** The cancel button is offered for pending records only. With distinct identifiers a click
      changes that record alone, so confirmed and cancelled records keep their status. */
  lemma CancelFromButtonKeepsSettled(bs: seq<StoredBooking>, k: nat)
    requires k < |bs| && bs[k].status == Pending && DistinctIds(bs)
    ensures forall i :: 0 <= i < |bs| && i != k ==> CancelById(bs, bs[k].id)[i] == bs[i]
    ensures forall i :: 0 <= i < |bs| && bs[i].status != Pending ==> CancelById(bs, bs[k].id)[i] == bs[i]
  {
  }

  /** Identifiers are not guaranteed to be distinct, and `map` matches every record with the
      identifier: when a confirmed record shares the identifier of a pending one, cancelling the
      pending one also cancels the confirmed one. */
  lemma SharedIdCancelsConfirmed(pending: StoredBooking, confirmed: StoredBooking)
    requires pending.status == Pending && confirmed.status == Confirmed && pending.id == confirmed.id
    ensures CancelById([pending, confirmed], pending.id)[1].status == Cancelled
  {
  }

  /** The dashboard page: the list it shows and the store behind it. */
  class Dashboard {
    var bookings: seq<StoredBooking>
    const store: BookingStore

    /** The page as first rendered, before its load effect runs. */
    constructor (store: BookingStore)
      ensures this.store == store && bookings == []
    {
      this.store := store;
      bookings := [];
    }

    /** The list on screen is the list in storage. */
    predicate Synced()
      reads this, store
    {
      bookings == store.saved
    }

    /** The "upcoming trips" figure of the page. */
    function UpcomingTrips(): (n: nat)
      reads this
      ensures n <= |bookings|
    {
      UpcomingCount(bookings)
    }

    /** The load effect: an empty store is seeded with one confirmed record, which is also written
        back; a non-empty store is shown as it is. */
    method Load(createdAt: string)
      modifies this, store
      ensures Synced()
      ensures old(store.saved) == [] ==> bookings == [SeedBooking(createdAt)]
      ensures old(store.saved) != [] ==> bookings == old(store.saved) && store.saved == old(store.saved)
    {
      var savedBookings := store.Load();
      if |savedBookings| == 0 {
        var sampleBooking := SeedBooking(createdAt);
        store.Save([sampleBooking]);
        bookings := [sampleBooking];
      } else {
        bookings := savedBookings;
      }
    }

    /** `handleCancelBooking`: replaces the shown list and the stored list with the cancelled list. */
    method CancelBooking(bookingId: string)
      modifies this, store
      ensures bookings == CancelById(old(bookings), bookingId)
      ensures Synced()
    {
      var updatedBookings := CancelById(bookings, bookingId);
      bookings := updatedBookings;
      store.Save(updatedBookings);
    }

    /** A click on the cancel button of row `k`, which exists only for a pending record. */
    method ClickCancel(k: nat)
      requires k < |bookings| && bookings[k].status == Pending
      modifies this, store
      ensures bookings == CancelById(old(bookings), old(bookings)[k].id)
      ensures bookings[k].status == Cancelled
      ensures UpcomingTrips() < old(UpcomingTrips())
      ensures Synced()
    {
      CancelUpcomingDecreases(bookings, k);
      CancelBooking(bookings[k].id);
    }
  }
}
