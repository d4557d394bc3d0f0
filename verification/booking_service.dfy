/** The booking service (src/services/bookingService.ts): the booking fixture,
    the request path of `getBookings`, and the fallback it computes when the
    request fails: filter by status, count, and cut out one page. */
module BookingService {
  import opened Common

  datatype Booking = Booking(
    id: string,
    userId: string,
    userName: string,
    userEmail: string,
    animalId: string,
    animalName: string,
    shares: int,
    totalAmount: int,
    status: string,
    bookingDate: string,
    notes: Option<string>)

  const Booking1 := Booking("booking1", "user1", "Ahmed Khan", "ahmed@example.com", "1", "Premium Cow",
                            2, 12000, "confirmed", "2025-05-15T10:30:00Z", None)
  const Booking2 := Booking("booking2", "user2", "Fatima Ali", "fatima@example.com", "3", "Medium Cow",
                            1, 5000, "pending", "2025-05-18T14:45:00Z", None)
  const Booking3 := Booking("booking3", "user3", "Mohammed Patel", "mohammed@example.com", "2", "Large Goat",
                            1, 15000, "completed", "2025-05-10T09:15:00Z", Some("Customer requested special packaging"))
  const Booking4 := Booking("booking4", "user4", "Zahra Khan", "zahra@example.com", "5", "Large Cow",
                            3, 21000, "pending", "2025-05-20T11:00:00Z", None)
  const Booking5 := Booking("booking5", "user5", "Yasir Ahmed", "yasir@example.com", "6", "Standard Goat",
                            1, 12000, "cancelled", "2025-05-05T16:30:00Z", Some("Customer cancelled due to travel plans"))
  const Booking6 := Booking("booking6", "user1", "Ahmed Khan", "ahmed@example.com", "4", "Premium Goat",
                            1, 20000, "confirmed", "2025-05-16T13:20:00Z", None)
  const Booking7 := Booking("booking7", "user6", "Aisha Rahman", "aisha@example.com", "1", "Premium Cow",
                            1, 6000, "pending", "2025-05-19T09:45:00Z", None)

  /** `mockBookings`, in its order. */
  function MockBookings(): seq<Booking>
  {
    [Booking1, Booking2, Booking3, Booking4, Booking5, Booking6, Booking7]
  }

  const DefaultPage := 1
  const DefaultPageSize := 10

  // ---------------------------------------------------------------------------
  // Status filter

  /** `status && status !== 'all'`: a status is given, is not empty, and is
      not 'all'. */
  predicate StatusSelects(status: Option<string>)
  {
    status.Some? && status.value != "" && status.value != "all"
  }

  /** The fallback's status filter. */
  function FilterByStatus(bookings: seq<Booking>, status: Option<string>): (r: seq<Booking>)
    ensures |r| <= |bookings|
    ensures forall b :: b in r <==> b in bookings && (StatusSelects(status) ==> b.status == status.value)
  {
    if StatusSelects(status) then Filter(bookings, (b: Booking) => b.status == status.value) else bookings
  }

  /** Without a selecting status the filter keeps the list as it is; with one
      it keeps the bookings of that status in their original order. */
  lemma FilterByStatusOrder(bookings: seq<Booking>, status: Option<string>)
    ensures !StatusSelects(status) ==> FilterByStatus(bookings, status) == bookings
    ensures StatusSelects(status) ==>
              FilterByStatus(bookings, status) == Filter(bookings, (b: Booking) => b.status == status.value)
  {
  }

  /** Filtering again by the same status changes nothing. */
  lemma FilterByStatusIdempotent(bookings: seq<Booking>, status: Option<string>)
    ensures FilterByStatus(FilterByStatus(bookings, status), status) == FilterByStatus(bookings, status)
  {
    if StatusSelects(status) {
      var r := FilterByStatus(bookings, status);
      FilterKeepsAll(r, (b: Booking) => b.status == status.value);
    }
  }

  // ---------------------------------------------------------------------------
  // Pagination

  /** `Math.ceil(n / d)` for a positive divisor. */
  function CeilDiv(n: nat, d: nat): (q: nat)
    requires d >= 1
    ensures q * d >= n
    ensures q > 0 ==> (q - 1) * d < n
    ensures q == 0 <==> n == 0
  {
    if n == 0 then 0 else 1 + CeilDiv(if n <= d then 0 else n - d, d)
  }

  /** `filtered.slice((page - 1) * pageSize, (page - 1) * pageSize + pageSize)`. */
  function PageOf(xs: seq<Booking>, page: int, pageSize: nat): (r: seq<Booking>)
    requires pageSize >= 1
    ensures |r| <= pageSize
  {
    var start := (page - 1) * pageSize;
    JsSlice(xs, start, start + pageSize)
  }

  /** From page 1 on, a page is the window of the list it names, clipped to
      the list's end. */
  lemma PageIsWindow(xs: seq<Booking>, page: int, pageSize: nat)
    requires pageSize >= 1 && page >= 1
    ensures var start := (page - 1) * pageSize;
            PageOf(xs, page, pageSize) ==
              if start >= |xs| then [] else xs[start..if start + pageSize <= |xs| then start + pageSize else |xs|]
  {
  }

  /** Multiplying by a natural number keeps the order. */
  lemma {:induction false} MulMonotone(a: nat, b: nat, c: nat)
    requires a <= b
    ensures a * c <= b * c
    decreases b - a
  {
    if a < b {
      MulMonotone(a, b - 1, c);
      assert b * c == (b - 1) * c + c;
    }
  }

  /** Pages after the last one are empty, and so is page 0. */
  lemma PagesBeyondLastAreEmpty(xs: seq<Booking>, page: int, pageSize: nat)
    requires pageSize >= 1
    requires page > CeilDiv(|xs|, pageSize) || page == 0
    ensures PageOf(xs, page, pageSize) == []
  {
    var q := CeilDiv(|xs|, pageSize);
    if page > q {
      MulMonotone(q, page - 1, pageSize);
      var start := (page - 1) * pageSize;
      assert start >= |xs|;
      assert PageOf(xs, page, pageSize) == JsSlice(xs, start, start + pageSize);
    } else {
      assert (page - 1) * pageSize + pageSize == 0;
    }
  }

  /** `slice` counts negative indices from the end, so a negative page is not
      empty: page -1 of the seven bookings in pages of 3 is the sixth-last to
      the fourth-last. */
  lemma NegativePageCountsFromEnd()
    ensures PageOf(MockBookings(), -1, 3) == [Booking2, Booking3, Booking4]
  {
    assert MockBookings()[1..4] == [Booking2, Booking3, Booking4];
  }

  /** Pages 1 to `k`, one after another. */
  function PagesUpTo(xs: seq<Booking>, pageSize: nat, k: nat): seq<Booking>
    requires pageSize >= 1
  {
    if k == 0 then [] else PagesUpTo(xs, pageSize, k - 1) + PageOf(xs, k, pageSize)
  }

  /** The first `k` pages are the first `k * pageSize` bookings. */
  lemma {:induction false} PagesUpToIsPrefix(xs: seq<Booking>, pageSize: nat, k: nat)
    requires pageSize >= 1
    ensures PagesUpTo(xs, pageSize, k) == xs[..if k * pageSize <= |xs| then k * pageSize else |xs|]
  {
    if k > 0 {
      PagesUpToIsPrefix(xs, pageSize, k - 1);
      var lo := (k - 1) * pageSize;
      var hi := k * pageSize;
      assert lo + pageSize == hi;
      MulMonotone(0, k - 1, pageSize);
      var a := if lo <= |xs| then lo else |xs|;
      var b := if hi <= |xs| then hi else |xs|;
      PageIsWindow(xs, k, pageSize);
      assert PageOf(xs, k, pageSize) == xs[a..b];
      assert xs[..a] + xs[a..b] == xs[..b];
    }
  }

  /** Pages 1 to `totalPages`, concatenated, give back the whole list. */
  lemma AllPagesCoverList(xs: seq<Booking>, pageSize: nat)
    requires pageSize >= 1
    ensures PagesUpTo(xs, pageSize, CeilDiv(|xs|, pageSize)) == xs
  {
    PagesUpToIsPrefix(xs, pageSize, CeilDiv(|xs|, pageSize));
  }

  // ---------------------------------------------------------------------------
  // getBookings

  datatype Paged = Paged(bookings: seq<Booking>, totalItems: int, totalPages: int)

  /** The path `getBookings` requests: the page and page size, then the
      status only when one selects. */
  function BookingsPath(page: int, pageSize: int, status: Option<string>): (path: string)
    ensures var base := "/?page=" + IntToString(page) + "&pageSize=" + IntToString(pageSize);
            |base| <= |path| && path[..|base|] == base &&
            (StatusSelects(status) ==> path[|base|..] == "&status=" + status.value) &&
            (!StatusSelects(status) ==> path == base)
    ensures StatusSelects(status) <==> Includes(path, "&status=")
  {
    var base := "/?page=" + IntToString(page) + "&pageSize=" + IntToString(pageSize);
    BaseLacksStatus(IntToString(page), IntToString(pageSize));
    if StatusSelects(status) then
      assert OccursAt(base + "&status=" + status.value, "&status=", |base|) by {
        assert (base + "&status=" + status.value)[|base|..|base| + 8] == "&status=";
      }
      base + "&status=" + status.value
    else base
  }

  /** The page and size part of the path never holds "&status=": its only
      '&' is followed by 'p'. */
  lemma BaseLacksStatus(p: string, s: string)
    requires forall c :: c in p ==> IsDigit(c) || c == '-'
    requires forall c :: c in s ==> IsDigit(c) || c == '-'
    ensures !Includes("/?page=" + p + "&pageSize=" + s, "&status=")
  {
    var base := "/?page=" + p + "&pageSize=" + s;
    forall i | 0 <= i <= |base| - 8 ensures !OccursAt(base, "&status=", i) {
      var amp := 7 + |p|;
      if i < 7 {
        assert base[i] == "/?page="[i];
      } else if i < amp {
        assert base[i] == p[i - 7];
        assert base[i] in p;
      } else if i == amp {
        assert base[i + 1] == 'p';
        assert base[i..i + 8][1] == base[i + 1];
      } else if i < amp + 10 {
        assert base[i] == "&pageSize="[i - amp];
      } else {
        assert base[i] == s[i - amp - 10];
        assert base[i] in s;
      }
      assert base[i..i + 8][0] == base[i];
    }
  }

  /** The fallback of `getBookings`. */
  function BookingsFallback(page: int, pageSize: nat, status: Option<string>): (r: Paged)
    requires pageSize >= 1
    ensures r.totalItems == |FilterByStatus(MockBookings(), status)|
    ensures r.totalPages == CeilDiv(r.totalItems, pageSize)
    ensures r.bookings == PageOf(FilterByStatus(MockBookings(), status), page, pageSize)
  {
    var filtered := FilterByStatus(MockBookings(), status);
    Paged(PageOf(filtered, page, pageSize), |filtered|, CeilDiv(|filtered|, pageSize))
  }

  /** `getBookings(page = 1, pageSize = 10, status?)`: the response, or the
      fallback. A size below 1 is not modelled (JavaScript would divide by
      zero). */
  function GetBookings(response: Remote<Paged>, page: Option<int>, pageSize: Option<int>, status: Option<string>): (r: Paged)
    requires pageSize.None? || pageSize.value >= 1
    ensures response.Success? ==> r == response.value
    ensures response.Failure? ==>
              r == BookingsFallback(match page case Some(p) => p case None => DefaultPage,
                                    match pageSize case Some(s) => s case None => DefaultPageSize, status)
  {
    match response
    case Success(paged) => paged
    case Failure =>
      var p := match page case Some(p) => p case None => DefaultPage;
      var s: nat := match pageSize case Some(s) => s case None => DefaultPageSize;
      BookingsFallback(p, s, status)
  }

  /** At its defaults the fallback puts all seven bookings on one page. */
  lemma FallbackDefaultsExample()
    ensures GetBookings(Failure, None, None, None) == Paged(MockBookings(), 7, 1)
  {
    assert MockBookings()[0..7] == MockBookings();
  }

  /** The second page of five holds the last two bookings. */
  lemma FallbackSecondPageExample()
    ensures GetBookings(Failure, Some(2), Some(5), Some("all")) == Paged([Booking6, Booking7], 7, 2)
  {
    assert MockBookings()[5..7] == [Booking6, Booking7];
  }

  /** A seven-entry list whose second, fourth and seventh entries alone pass
      a test keeps exactly those under it. */
  lemma {:induction false} FilterSecondFourthSeventh<T>(m: seq<T>, p: T -> bool)
    requires |m| == 7
    requires !p(m[0]) && p(m[1]) && !p(m[2]) && p(m[3]) && !p(m[4]) && !p(m[5]) && p(m[6])
    ensures Filter(m, p) == [m[1], m[3], m[6]]
  {
    var fromFourth := Filter(m[3..], p);
    FromFourthOn(m, p);
    FilterSuffixStep(m, 2, p);
    FilterSuffixStep(m, 1, p);
    var fromSecond := Filter(m[1..], p);
    assert fromSecond == [m[1]] + fromFourth;
    FilterSuffixStep(m, 0, p);
    assert m[0..] == m;
  }

  /** The last four entries of such a list contribute the fourth and the
      seventh. */
  lemma {:induction false} FromFourthOn<T>(m: seq<T>, p: T -> bool)
    requires |m| == 7
    requires p(m[3]) && !p(m[4]) && !p(m[5]) && p(m[6])
    ensures Filter(m[3..], p) == [m[3], m[6]]
  {
    FilterSuffixStep(m, 6, p);
    assert m[7..] == [];
    FilterSuffixStep(m, 5, p);
    FilterSuffixStep(m, 4, p);
    FilterSuffixStep(m, 3, p);
  }

  /** The pending bookings are the second, fourth and seventh. */
  lemma PendingExample()
    ensures FilterByStatus(MockBookings(), Some("pending")) == [Booking2, Booking4, Booking7]
  {
    var m := MockBookings();
    var pending := (b: Booking) => b.status == "pending";
    assert m[0].status[0] == 'c' && m[2].status[0] == 'c' && m[4].status[0] == 'c' && m[5].status[0] == 'c';
    assert m[1].status == "pending" && m[3].status == "pending" && m[6].status == "pending";
    FilterSecondFourthSeventh(m, pending);
  }

  /** `updateBookingStatus` reports success whether the request succeeded or
      not. */
  function UpdateBookingStatus(response: Remote<()>): (ok: bool)
    ensures ok
  {
    match response
    case Success(_) => true
    case Failure => true
  }

  /** `mockBookings.find(b => b.id === id)`. */
  function FindBookingById(bookings: seq<Booking>, id: string): (r: Option<Booking>)
    ensures r.None? <==> forall b :: b in bookings ==> b.id != id
    ensures r.Some? ==> r.value in bookings && r.value.id == id
    ensures r.Some? ==> exists k :: 0 <= k < |bookings| && bookings[k] == r.value &&
                          forall i :: 0 <= i < k ==> bookings[i].id != id
  {
    if bookings == [] then None
    else if bookings[0].id == id then Some(bookings[0])
    else
      var r := FindBookingById(bookings[1..], id);
      if r.Some? then
        var k :| 0 <= k < |bookings[1..]| && bookings[1..][k] == r.value &&
                 forall i :: 0 <= i < k ==> bookings[1..][i].id != id;
        assert bookings[k + 1] == r.value;
        r
      else r
  }

  /** `getBookingById`: the response, or the first fixture booking with the id. */
  function GetBookingById(response: Remote<Option<Booking>>, id: string): (r: Option<Booking>)
    ensures response.Success? ==> r == response.value
    ensures response.Failure? ==> r == FindBookingById(MockBookings(), id)
  {
    match response
    case Success(found) => found
    case Failure => FindBookingById(MockBookings(), id)
  }
}
