/** The booking administration page (src/pages/admin/BookingManagement.tsx):
    its own copy of the booking fixture and of the paging computation, the
    page number moved by Previous and Next, the status filter, and the badge
    colour and label of a status. */
module BookingManagement {
  import opened Common
  import opened BookingService

  const PageSize := 5

  /** The page's own copy of the booking fixture (the same seven bookings as
      the service's). */
  function PageBookings(): seq<Booking>
  {
    [Booking1, Booking2, Booking3, Booking4, Booking5, Booking6, Booking7]
  }

  /** The page's `fetchBookings`: filter unless the filter is empty or 'all',
      count, and cut out the page. */
  function FetchBookings(page: int, pageSize: nat, statusFilter: string): (r: Paged)
    requires pageSize >= 1
    ensures r.totalPages * pageSize >= r.totalItems
    ensures |r.bookings| <= pageSize
  {
    var filtered := if statusFilter != "" && statusFilter != "all"
                    then Filter(PageBookings(), (b: Booking) => b.status == statusFilter)
                    else PageBookings();
    Paged(PageOf(filtered, page, pageSize), |filtered|, CeilDiv(|filtered|, pageSize))
  }

  /** The page computes exactly what the service's fallback computes. */
  lemma FetchAgreesWithService(page: int, pageSize: nat, statusFilter: string)
    requires pageSize >= 1
    ensures FetchBookings(page, pageSize, statusFilter) == BookingsFallback(page, pageSize, Some(statusFilter))
  {
    assert PageBookings() == MockBookings();
  }

  /** `data?.totalPages || 1`: the last page, taken as 1 while nothing is
      loaded or when there are no pages. */
  function LastPage(data: Option<Paged>): (last: int)
    ensures data.None? || data.value.totalPages == 0 ==> last == 1
    ensures data.Some? && data.value.totalPages != 0 ==> last == data.value.totalPages
    ensures data.None? || data.value.totalPages >= 0 ==> last >= 1
  {
    if data.Some? && data.value.totalPages != 0 then data.value.totalPages else 1
  }

  /** `getStatusBadgeColor`. */
  function BadgeColor(status: string): (color: string)
    ensures status == "pending" ==> color == "bg-yellow-500"
    ensures status == "confirmed" ==> color == "bg-blue-500"
    ensures status == "completed" ==> color == "bg-green-500"
    ensures status == "cancelled" ==> color == "bg-red-500"
    ensures status !in {"pending", "confirmed", "completed", "cancelled"} <==> color == "bg-gray-500"
  {
    if status == "pending" then "bg-yellow-500"
    else if status == "confirmed" then "bg-blue-500"
    else if status == "completed" then "bg-green-500"
    else if status == "cancelled" then "bg-red-500"
    else "bg-gray-500"
  }

  /** Every fixture booking gets a status colour of its own, never the grey of
      an unknown status. */
  lemma FixtureStatusesHaveColours()
    ensures forall b :: b in PageBookings() ==> BadgeColor(b.status) != "bg-gray-500"
  {
  }

  /** The badge text: the status with its first letter upper-cased. */
  function StatusLabel(status: string): (text: string)
    ensures |text| == |status|
    ensures status != "" ==> text[0] == UpperChar(status[0]) && text[1..] == status[1..]
  {
    CapitalizeFirst(status)
  }

  /** The four labels the fixture shows. */
  lemma StatusLabels()
    ensures StatusLabel("pending") == "Pending" && StatusLabel("confirmed") == "Confirmed"
    ensures StatusLabel("completed") == "Completed" && StatusLabel("cancelled") == "Cancelled"
  {
    assert "pending"[1..] == "ending";
    assert "confirmed"[1..] == "onfirmed";
    assert "completed"[1..] == "ompleted";
    assert "cancelled"[1..] == "ancelled";
  }

  /** The page's state: the page number, the status filter, the loaded data
      and the last toast. */
  class BookingPager {
    var page: int
    var statusFilter: string
    var data: Option<Paged>
    var toast: Option<string>

    /** Page 1, all statuses, nothing loaded yet. */
    constructor ()
      ensures page == 1 && statusFilter == "all" && data.None? && toast.None?
    {
      page := 1;
      statusFilter := "all";
      data := None;
      toast := None;
    }

    /** The query for the current page and filter has answered. */
    method Load()
      modifies this
      ensures data == Some(FetchBookings(page, PageSize, statusFilter))
      ensures page == old(page) && statusFilter == old(statusFilter)
    {
      data := Some(FetchBookings(page, PageSize, statusFilter));
    }

    /** Previous: `Math.max(p - 1, 1)`. */
    method Previous()
      modifies this
      ensures page == if old(page) - 1 > 1 then old(page) - 1 else 1
      ensures page >= 1 && (old(page) >= 1 ==> page <= old(page))
      ensures statusFilter == old(statusFilter) && data == old(data)
    {
      page := if page - 1 > 1 then page - 1 else 1;
    }

    /** Next: `Math.min(p + 1, data?.totalPages || 1)`. */
    method Next()
      modifies this
      ensures page == if old(page) + 1 < LastPage(data) then old(page) + 1 else LastPage(data)
      ensures page <= LastPage(data)
      ensures old(page) >= 0 && LastPage(data) >= 1 ==> page >= 1
      ensures statusFilter == old(statusFilter) && data == old(data)
    {
      var last := LastPage(data);
      page := if page + 1 < last then page + 1 else last;
    }

    /** Choosing a status filter keeps the page number. */
    method SetStatusFilter(status: string)
      modifies this
      ensures statusFilter == status && page == old(page) && data == old(data)
    {
      statusFilter := status;
    }

    /** `handleStatusChange`: the mock update changes no booking; the page
        reports success and loads again. */
    method ChangeStatus(bookingId: string, status: string)
      modifies this
      ensures toast == Some("Booking status updated successfully")
      ensures data == Some(FetchBookings(page, PageSize, statusFilter))
      ensures page == old(page) && statusFilter == old(statusFilter)
    {
      toast := Some("Booking status updated successfully");
      data := Some(FetchBookings(page, PageSize, statusFilter));
    }
  }

  /** Since the filter keeps the page number, narrowing the filter on page 2
      leaves an empty page: all seven bookings fill two pages of five, but the
      three pending ones fit on one. */
  lemma FilterChangeCanStrandPage()
    ensures FetchBookings(2, PageSize, "all").bookings == [Booking6, Booking7]
    ensures FetchBookings(2, PageSize, "pending").totalPages == 1
    ensures FetchBookings(2, PageSize, "pending").bookings == []
  {
    FetchAgreesWithService(2, PageSize, "all");
    FallbackSecondPageExample();
    FetchAgreesWithService(2, PageSize, "pending");
    PendingExample();
  }
}
