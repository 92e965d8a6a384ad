/** The payments panel of the dashboard: a status filter and a date filter
    over the gateway's transaction list, the summary cards (total amount
    and the captured, failed and pending counts), the cells of the
    transaction table, and the CSV export. The date bounds the filter reads
    off the clock, and the locale-dependent number and date renderings, are
    parameters. */
module PaymentManagement {
  import opened Common
  import opened Records

  const Captured: string := "captured"
  const Failed: string := "failed"
  const Created: string := "created"

  /** The bounds the date filter computes from the current time: today's
      midnight, seven days back and one month back. */
  datatype DateBounds = DateBounds(todayStart: int, weekAgo: int, monthAgo: int)

  /** `filter !== "all" && payment.status !== filter` rejects. */
  predicate StatusMatches(filter: string, p: Payment)
  {
    filter == "all" || p.status == filter
  }

  /** "today", "week" and "month" keep the payments created at or after
      their bound (with no upper bound); "all" and any other range keep
      every payment. A missing or unreadable date passes no bound. */
  predicate DateMatches(range: string, b: DateBounds, p: Payment)
  {
    if range == "today" then p.createdAt.Some? && p.createdAt.value >= b.todayStart
    else if range == "week" then p.createdAt.Some? && p.createdAt.value >= b.weekAgo
    else if range == "month" then p.createdAt.Some? && p.createdAt.value >= b.monthAgo
    else true
  }

  function PaymentKeeps(filter: string, range: string, b: DateBounds): Payment -> bool
  {
    (p: Payment) => StatusMatches(filter, p) && DateMatches(range, b, p)
  }

  /** `filteredPayments`: no data stays no data; otherwise exactly the
      payments that pass both filters, in list order. With both filters on
      "all" nothing is dropped. */
  function FilteredPayments(data: Option<seq<Payment>>, filter: string, range: string, b: DateBounds)
    : (r: Option<seq<Payment>>)
    ensures r.Some? <==> data.Some?
    ensures data.Some? ==> |r.value| <= |data.value|
    ensures data.Some? ==> forall p :: p in r.value ==>
              p in data.value && StatusMatches(filter, p) && DateMatches(range, b, p)
    ensures data.Some? ==>
              forall i :: (0 <= i < |data.value|
                           && StatusMatches(filter, data.value[i]) && DateMatches(range, b, data.value[i]))
                          ==> data.value[i] in r.value
    ensures data.Some? ==> r.value == Filter(data.value, PaymentKeeps(filter, range, b))
    ensures data.Some? && filter == "all" && range == "all" ==> r == data
  {
    if data.None? then None
    else
      NoFilterKeepsAll(data.value, b);
      Some(Filter(data.value, PaymentKeeps(filter, range, b)))
  }

  lemma NoFilterKeepsAll(ps: seq<Payment>, b: DateBounds)
    ensures Filter(ps, PaymentKeeps("all", "all", b)) == ps
  {
    FilterKeepsAll(ps, PaymentKeeps("all", "all", b));
  }

  function AmountValue(p: Payment): real
  {
    if p.amount.Some? then p.amount.value else 0.0
  }

  predicate AllAmountsPresent(ps: seq<Payment>)
  {
    forall p :: p in ps ==> p.amount.Some?
  }

  /** `filteredPayments?.reduce((sum, p) => sum + p.amount, 0) || 0`: one
      undefined amount makes the sum NaN, which shows as 0, as does no data.
      `None` stands for an undefined amount. */
  function TotalAmount(filtered: Option<seq<Payment>>): (r: real)
    ensures filtered.None? ==> r == 0.0
    ensures filtered.Some? && !AllAmountsPresent(filtered.value) ==> r == 0.0
    ensures filtered.Some? && AllAmountsPresent(filtered.value) ==> r == Sum(filtered.value, AmountValue)
  {
    if filtered.None? || !AllAmountsPresent(filtered.value) then 0.0
    else Sum(filtered.value, AmountValue)
  }

  /** When every amount is present and non-negative, narrowing the status
      filter never raises the total. */
  lemma NarrowerStatusLowerTotal(data: seq<Payment>, filter: string, range: string, b: DateBounds)
    requires AllAmountsPresent(data)
    requires forall p :: p in data ==> AmountValue(p) >= 0.0
    ensures TotalAmount(FilteredPayments(Some(data), filter, range, b))
            <= TotalAmount(FilteredPayments(Some(data), "all", range, b))
  {
    var all := Filter(data, PaymentKeeps("all", range, b));
    FilterOfFilter(data, PaymentKeeps(filter, range, b), PaymentKeeps("all", range, b));
    SumFilterAtMost(all, PaymentKeeps(filter, range, b), AmountValue);
  }

  datatype Summary = Summary(total: real, successful: nat, failed: nat, pending: nat)

  function StatusOf(st: string): Payment -> bool
  {
    (p: Payment) => p.status == st
  }

  /** The four summary cards over the filtered list; no data shows zeros. */
  function SummaryOf(filtered: Option<seq<Payment>>): (s: Summary)
    ensures filtered.None? ==> s == Summary(0.0, 0, 0, 0)
    ensures filtered.Some? ==> s.successful == Count(filtered.value, StatusOf(Captured))
    ensures filtered.Some? ==> s.failed == Count(filtered.value, StatusOf(Failed))
    ensures filtered.Some? ==> s.pending == Count(filtered.value, StatusOf(Created))
    ensures filtered.Some? ==> s.successful + s.failed + s.pending <= |filtered.value|
    ensures s.total == TotalAmount(filtered)
  {
    if filtered.None? then Summary(0.0, 0, 0, 0)
    else
      var ps := filtered.value;
      CountDisjoint3(ps, StatusOf(Captured), StatusOf(Failed), StatusOf(Created));
      Summary(TotalAmount(filtered), Count(ps, StatusOf(Captured)), Count(ps, StatusOf(Failed)),
              Count(ps, StatusOf(Created)))
  }

  /** Filtering by one status puts every shown payment on that status's
      card and none on the others. */
  lemma StatusFilterFillsOneCard(data: seq<Payment>, range: string, b: DateBounds)
    ensures var s := SummaryOf(FilteredPayments(Some(data), Captured, range, b));
            var shown := FilteredPayments(Some(data), Captured, range, b).value;
            s.successful == |shown| && s.failed == 0 && s.pending == 0
  {
    var shown := Filter(data, PaymentKeeps(Captured, range, b));
    FilterKeepsAll(shown, StatusOf(Captured));
    FilterNone(shown, StatusOf(Failed));
    FilterNone(shown, StatusOf(Created));
  }

  lemma {:induction false} FilterNone<T>(s: seq<T>, p: T -> bool)
    requires forall x :: x in s ==> !p(x)
    ensures Filter(s, p) == []
  {
    if s != [] {
      assert forall x :: x in s[..|s| - 1] ==> x in s;
      FilterNone(s[..|s| - 1], p);
    }
  }

  // ---------------------------------------------------------------------
  // The transaction table

  /** `id?.slice(-8) || "N/A"`: the last eight characters, or all of a
      shorter id; an empty or missing id shows "N/A". */
  function DisplayId(id: string): (r: string)
    ensures id == "" ==> r == "N/A"
    ensures 0 < |id| <= 8 ==> r == id
    ensures |id| > 8 ==> |r| == 8 && id == id[..|id| - 8] + r
  {
    if id == "" then "N/A"
    else if |id| <= 8 then id
    else id[|id| - 8..]
  }

  /** Two ids that end alike show alike. */
  lemma DisplayIdKeepsSuffix(prefix: string, tail: string)
    requires |tail| == 8
    ensures DisplayId(prefix + tail) == tail
  {
    assert (prefix + tail)[|prefix + tail| - 8..] == tail;
  }

  /** `value || "N/A"` for the method, status, email and contact cells. */
  function OrNotAvailable(s: string): (r: string)
    ensures r != ""
    ensures s != "" ==> r == s
  {
    if s == "" then "N/A" else s
  }

  /** The status badge's colour. */
  datatype Badge = Green | Red | Yellow

  function BadgeFor(status: string): (c: Badge)
    ensures c == Green <==> status == Captured
    ensures c == Red <==> status == Failed
  {
    if status == Captured then Green else if status == Failed then Red else Yellow
  }

  // ---------------------------------------------------------------------
  // CSV export

  const Headers: seq<string> :=
    ["Payment ID", "Order ID", "Amount", "Method", "Status", "Email", "Contact", "Date"]

  /** One payment's cells, in header order. A missing amount joins as the
      empty string; `amountText` renders a number and `dateText` is
      `new Date(createdAt).toLocaleString()`. */
  function CsvCells(p: Payment, amountText: real -> string, dateText: Option<int> -> string): (cells: seq<string>)
    ensures |cells| == |Headers|
    ensures cells[0] == p.paymentId && cells[1] == p.orderId && cells[3] == p.payMethod
    ensures cells[4] == p.status && cells[5] == p.email && cells[6] == p.contact
    ensures cells[2] == if p.amount.Some? then amountText(p.amount.value) else ""
    ensures cells[7] == dateText(p.createdAt)
  {
    [p.paymentId, p.orderId, if p.amount.Some? then amountText(p.amount.value) else "",
     p.payMethod, p.status, p.email, p.contact, dateText(p.createdAt)]
  }

  /** `[headers, ...csvData]`. */
  function CsvRows(ps: seq<Payment>, amountText: real -> string, dateText: Option<int> -> string): (rows: seq<seq<string>>)
    ensures |rows| == |ps| + 1 && rows[0] == Headers
    ensures forall i :: 0 <= i < |ps| ==> rows[i + 1] == CsvCells(ps[i], amountText, dateText)
  {
    [Headers] + seq(|ps|, i requires 0 <= i < |ps| => CsvCells(ps[i], amountText, dateText))
  }

  /** `rows.map(row => row.join(',')).join('\n')`. */
  function CsvText(rows: seq<seq<string>>): string
  {
    Join(seq(|rows|, i requires 0 <= i < |rows| => Join(rows[i], ',')), '\n')
  }

  /** The export of the filtered list. Spreading a missing list throws, so
      there is no file without data. */
  function ExportCsv(filtered: Option<seq<Payment>>, amountText: real -> string, dateText: Option<int> -> string)
    : (r: Option<string>)
    ensures r.Some? <==> filtered.Some?
  {
    if filtered.None? then None
    else Some(CsvText(CsvRows(filtered.value, amountText, dateText)))
  }

  /** Holds when no cell carries a separator the file format relies on. */
  predicate CellsClean(rows: seq<seq<string>>)
  {
    forall i, j :: 0 <= i < |rows| && 0 <= j < |rows[i]| ==> Free(rows[i][j], ',') && Free(rows[i][j], '\n')
  }

  /** The export reads back: as long as no cell holds a comma or a line
      break, splitting the file at line breaks gives one line per row, the
      header first, and splitting each line at commas gives back that row's
      cells. (The export does not quote cells, so a comma in a cell would
      shift the columns of its line.) */
  lemma {:induction false} CsvReadsBack(rows: seq<seq<string>>)
    requires |rows| >= 1 && forall i :: 0 <= i < |rows| ==> |rows[i]| >= 1
    requires CellsClean(rows)
    ensures |Split(CsvText(rows), '\n')| == |rows|
    ensures forall i :: 0 <= i < |rows| ==> Split(Split(CsvText(rows), '\n')[i], ',') == rows[i]
  {
    var lines := seq(|rows|, i requires 0 <= i < |rows| => Join(rows[i], ','));
    forall i | 0 <= i < |rows|
      ensures Free(lines[i], '\n') && Split(lines[i], ',') == rows[i]
    {
      JoinFree(rows[i], ',', '\n');
      SplitJoin(rows[i], ',');
    }
    SplitJoin(lines, '\n');
  }

  /** For the payments panel in particular: the file has one line per
      payment after the header line, the header line reads back as the
      eight column names, and each payment's line as its cells. */
  lemma ExportReadsBack(ps: seq<Payment>, amountText: real -> string, dateText: Option<int> -> string)
    requires CellsClean(CsvRows(ps, amountText, dateText))
    ensures var lines := Split(ExportCsv(Some(ps), amountText, dateText).value, '\n');
            && |lines| == |ps| + 1
            && Split(lines[0], ',') == Headers
            && forall i :: 0 <= i < |ps| ==> Split(lines[i + 1], ',') == CsvCells(ps[i], amountText, dateText)
  {
    CsvReadsBack(CsvRows(ps, amountText, dateText));
  }

  /** The download is named after the date part of the ISO timestamp:
      `payments-${iso.split('T')[0]}.csv`. */
  function ExportFileName(iso: string): (name: string)
  {
    "payments-" + Split(iso, 'T')[0] + ".csv"
  }

  /** For an ISO timestamp `date` + "T" + `time`, the name carries exactly
      the date. */
  lemma ExportFileNameIsDate(date: string, time: string)
    requires Free(date, 'T') && Free(time, 'T')
    ensures ExportFileName(date + "T" + time) == "payments-" + date + ".csv"
  {
    SplitAfterSeparator(date, time, 'T');
    SplitFree(date, 'T');
    assert date + "T" + time == date + ['T'] + time;
  }
}
