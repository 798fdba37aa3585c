/** The administrator's dashboard of `pages/AdminDashboard.tsx`: the donations loaded from
    the cloud and their total, the CSV export of the ledger, the update form, and the
    pass verification panel. */
module AdminDashboard {
  import opened Wrappers
  import opened Strings
  import opened Types
  import opened Store
  import opened Appwrite

  const CsvPrefix: string := "data:text/csv;charset=utf-8,"

  // ================================================================ total

  /** The reference total: the amounts added up from the right. */
  function Sum(ds: seq<Donation>): int {
    if ds == [] then 0 else ds[0].amount + Sum(ds[1..])
  }

  /** `reduce((acc, curr) => acc + curr.amount, acc)`: a left fold from `acc`; the
      dashboard seeds it with 0. */
  function TotalFrom(acc: int, ds: seq<Donation>): int
    decreases |ds|
  {
    if ds == [] then acc else TotalFrom(acc + ds[0].amount, ds[1..])
  }

  /** The dashboard's total is the sum of the amounts, whatever the starting value. */
  lemma {:induction false} TotalIsSum(acc: int, ds: seq<Donation>)
    ensures TotalFrom(acc, ds) == acc + Sum(ds)
    decreases |ds|
  {
    if ds != [] {
      TotalIsSum(acc + ds[0].amount, ds[1..]);
    }
  }

  /** With donations the form accepts (each above zero and at most `cap`), the total lies
      between the count and `cap` times the count. */
  lemma {:induction false} TotalBounds(ds: seq<Donation>, cap: int)
    requires forall i :: 0 <= i < |ds| ==> 0 < ds[i].amount <= cap
    ensures |ds| <= TotalFrom(0, ds) <= |ds| * cap
  {
    TotalIsSum(0, ds);
    SumBounds(ds, cap);
  }

  lemma {:induction false} SumBounds(ds: seq<Donation>, cap: int)
    requires forall i :: 0 <= i < |ds| ==> 0 < ds[i].amount <= cap
    ensures |ds| <= Sum(ds) <= |ds| * cap
  {
    if ds != [] {
      assert forall i :: 0 <= i < |ds[1..]| ==> ds[1..][i] == ds[i + 1];
      SumBounds(ds[1..], cap);
    }
  }

  // ================================================================ CSV export

  /** The header row of the export. */
  const Header: seq<string> := ["Transaction ID", "Pass ID", "Receipt ID", "Donor", "Amount", "Date", "Purpose"]

  /** `d.receiptId || ""`: empty for a missing receipt id and for 0. */
  function ReceiptCell(r: Option<int>): (cell: string)
    ensures cell == [] <==> r.None? || r.value == 0
    ensures cell != [] ==> cell == IntToString(r.value)
  {
    if r.None? || r.value == 0 then "" else IntToString(r.value)
  }

  /** One donation's row: seven cells in the header's order. */
  function Row(d: Donation): (cells: seq<string>)
    ensures |cells| == |Header|
    ensures cells[0] == d.transactionId && cells[1] == d.passId && cells[3] == d.donorName
    ensures cells[2] == ReceiptCell(d.receiptId) && cells[4] == IntToString(d.amount)
    ensures cells[5] == d.timestamp && cells[6] == d.purpose.GetOr("")
  {
    [d.transactionId, d.passId, ReceiptCell(d.receiptId), d.donorName,
     IntToString(d.amount), d.timestamp, d.purpose.GetOr("")]
  }

  /** `row.join(",")`. */
  function Line(cells: seq<string>): string {
    Join(cells, ",")
  }

  /** The lines of the file: the header, then one per donation in order. */
  function CsvLines(donations: seq<Donation>): (lines: seq<string>)
    ensures |lines| == |donations| + 1
    ensures lines[0] == Line(Header)
    ensures forall i :: 0 <= i < |donations| ==> lines[i + 1] == Line(Row(donations[i]))
  {
    [Line(Header)] + seq(|donations|, i requires 0 <= i < |donations| => Line(Row(donations[i])))
  }

  /** The exported data URI before encoding. */
  function CsvContent(donations: seq<Donation>): (content: string)
    ensures |content| >= |CsvPrefix| && content[..|CsvPrefix|] == CsvPrefix
  {
    CsvPrefix + Join(CsvLines(donations), "\n")
  }

  /** A character absent from every part and from the separator is absent from the join. */
  lemma {:induction false} NotInJoin(parts: seq<string>, sep: string, c: char)
    requires c !in sep
    requires forall i :: 0 <= i < |parts| ==> c !in parts[i]
    ensures c !in Join(parts, sep)
  {
    if |parts| > 1 {
      assert forall i :: 0 <= i < |parts[1..]| ==> parts[1..][i] == parts[i + 1];
      NotInJoin(parts[1..], sep, c);
      assert c !in parts[0];
    }
  }

  lemma {:induction false} CountInAllZero(parts: seq<string>, c: char)
    requires forall i :: 0 <= i < |parts| ==> c !in parts[i]
    ensures CountInAll(parts, c) == 0
  {
    if parts != [] {
      CountCharNotIn(parts[0], c);
      assert forall i :: 0 <= i < |parts[1..]| ==> parts[1..][i] == parts[i + 1];
      CountInAllZero(parts[1..], c);
    }
  }

  /** Decimal text holds neither a comma nor a line break. */
  lemma NumberCellsPlain(n: int, r: Option<int>)
    ensures ',' !in IntToString(n) && '\n' !in IntToString(n)
    ensures ',' !in ReceiptCell(r) && '\n' !in ReceiptCell(r)
  {
    var s := IntToString(n);
    assert forall k :: 0 <= k < |s| ==> s[k] != ',' && s[k] != '\n';
    if r.Some? {
      var t := IntToString(r.value);
      assert forall k :: 0 <= k < |t| ==> t[k] != ',' && t[k] != '\n';
    }
  }

  /** A donation whose text fields hold no line break. */
  predicate NoLineBreaks(d: Donation) {
    && '\n' !in d.transactionId && '\n' !in d.passId && '\n' !in d.donorName
    && '\n' !in d.timestamp && '\n' !in d.purpose.GetOr("")
  }

  /** No line of the export holds a line break when no donation's text field does. */
  lemma LinesHaveNoBreaks(donations: seq<Donation>)
    requires forall i :: 0 <= i < |donations| ==> NoLineBreaks(donations[i])
    ensures forall i :: 0 <= i < |CsvLines(donations)| ==> '\n' !in CsvLines(donations)[i]
  {
    var lines := CsvLines(donations);
    forall i | 0 <= i < |lines| ensures '\n' !in lines[i] {
      if i == 0 {
        HeaderPlain();
      } else {
        RowPlain(donations[i - 1]);
      }
    }
  }

  lemma HeaderPlain()
    ensures '\n' !in Line(Header)
  {
    assert forall k :: 0 <= k < |Header| ==> '\n' !in Header[k];
    NotInJoin(Header, ",", '\n');
  }

  lemma RowPlain(d: Donation)
    requires NoLineBreaks(d)
    ensures '\n' !in Line(Row(d))
  {
    NumberCellsPlain(d.amount, d.receiptId);
    var cells := Row(d);
    assert forall k :: 0 <= k < |cells| ==> '\n' !in cells[k];
    NotInJoin(cells, ",", '\n');
  }

  lemma PrefixPlain()
    ensures CountChar(CsvPrefix, '\n') == 0
  {
    assert '\n' !in CsvPrefix;
    CountCharNotIn(CsvPrefix, '\n');
  }

  /** The export has exactly one line per donation after the header, provided no text
      field holds a line break (the source writes cells unquoted). */
  lemma ExportHasOneLinePerDonation(donations: seq<Donation>)
    requires forall i :: 0 <= i < |donations| ==> NoLineBreaks(donations[i])
    ensures CountChar(CsvContent(donations), '\n') == |donations|
  {
    var lines := CsvLines(donations);
    LinesHaveNoBreaks(donations);
    CountInAllZero(lines, '\n');
    JoinCount(lines, '\n');
    PrefixPlain();
    CountCharConcat(CsvPrefix, Join(lines, "\n"), '\n');
  }

  /** Every row has six separating commas plus every comma its cells hold: a comma inside
      a field shifts the columns after it. */
  lemma RowCommas(d: Donation)
    ensures CountChar(Line(Row(d)), ',') == 6 + CountInAll(Row(d), ',')
  {
    JoinCount(Row(d), ',');
  }

  /** A row whose text fields hold no comma has exactly the header's seven columns. */
  lemma PlainRowHasSevenColumns(d: Donation)
    requires ',' !in d.transactionId && ',' !in d.passId && ',' !in d.donorName
    requires ',' !in d.timestamp && ',' !in d.purpose.GetOr("")
    ensures CountChar(Line(Row(d)), ',') == 6
  {
    RowCommas(d);
    NumberCellsPlain(d.amount, d.receiptId);
    var cells := Row(d);
    assert forall k :: 0 <= k < |cells| ==> ',' !in cells[k];
    CountInAllZero(cells, ',');
  }

  /** A donor name holding a comma gives its row an eighth column, since the cells are
      joined without quoting. */
  lemma CommaInNameAddsColumn(d: Donation)
    requires ',' in d.donorName
    ensures CountChar(Line(Row(d)), ',') > 6
  {
    RowCommas(d);
    CountCharIn(d.donorName, ',');
    CountInAllAtLeast(Row(d), 3, ',');
  }

  /** The count over all parts is at least the count in any one of them. */
  lemma {:induction false} CountInAllAtLeast(parts: seq<string>, k: nat, c: char)
    requires k < |parts|
    ensures CountInAll(parts, c) >= CountChar(parts[k], c)
  {
    if k > 0 {
      assert parts[1..][k - 1] == parts[k];
      CountInAllAtLeast(parts[1..], k - 1, c);
    }
  }

  // ================================================================ updates

  /** The update form's fields. */
  datatype Draft = Draft(title: string, description: string, imageUrl: string)

  const EmptyDraft: Draft := Draft("", "", "")

  /** The update posted from a draft, with a random id and the current time. */
  function NewUpdate(draft: Draft, id: string, timestamp: string): (u: EventUpdate)
    ensures u.id == id && u.timestamp == timestamp
    ensures u.title == draft.title && u.description == draft.description
    ensures u.imageUrl == Some(draft.imageUrl)
  {
    EventUpdate(id, draft.title, draft.description, Some(draft.imageUrl), timestamp)
  }

  // ================================================================ the dashboard

  /** What the pass panel shows in full: the details of a valid result carrying a document. */
  function ShowsDetail(r: VerifyResult): (shown: bool)
    ensures shown <==> r.valid && r.data.Some?
  {
    r.valid && r.data.Some?
  }

  /** Only a pass whose stored document is authentic shows its details. */
  lemma DetailOnlyForAuthentic(store: seq<Doc>, id: string, reach: Reach, secret: string)
    ensures ShowsDetail(CloudVerdict(store, id, reach, secret)) ==>
              Locate(store, id).Some? && Authentic(Locate(store, id).value, secret)
              && CloudVerdict(store, id, reach, secret).data == Locate(store, id)
  {
  }

  /** The dashboard's state. */
  class Dashboard {
    var donations: seq<Donation>
    var isLoadingDonations: bool
    var draft: Draft
    var verifyPassId: string
    var verificationResult: Option<VerifyResult>
    var isVerifying: bool

    constructor ()
      ensures donations == [] && isLoadingDonations && draft == EmptyDraft
      ensures verifyPassId == [] && verificationResult == None && !isVerifying
    {
      donations := [];
      isLoadingDonations := true;
      draft := EmptyDraft;
      verifyPassId := [];
      verificationResult := None;
      isVerifying := false;
    }

    /** The load on mount: the cloud's donations replace the list (an empty list when the
        query fails), and loading ends. */
    method LoadDonations(store: seq<Doc>, reachable: bool)
      modifies this`donations, this`isLoadingDonations
      ensures donations == FetchAllDonations(store, reachable) && !isLoadingDonations
      ensures draft == old(draft) && verifyPassId == old(verifyPassId)
      ensures verificationResult == old(verificationResult) && isVerifying == old(isVerifying)
    {
      isLoadingDonations := true;
      donations := FetchAllDonations(store, reachable);
      isLoadingDonations := false;
    }

    /** The total shown on the dashboard. */
    method TotalDonations() returns (total: int)
      ensures total == Sum(donations) && total == TotalFrom(0, donations)
    {
      total := 0;
      var i := 0;
      while i < |donations|
        invariant 0 <= i <= |donations|
        invariant total + Sum(donations[i..]) == Sum(donations)
      {
        assert donations[i..][1..] == donations[i + 1..];
        total := total + donations[i].amount;
        i := i + 1;
      }
      TotalIsSum(0, donations);
    }

    /** `handleAddUpdate`: the update to post; the form is cleared. */
    method AddUpdate(id: string, timestamp: string) returns (u: EventUpdate)
      modifies this`draft
      ensures u == NewUpdate(old(draft), id, timestamp) && draft == EmptyDraft
      ensures donations == old(donations) && verificationResult == old(verificationResult)
    {
      u := NewUpdate(draft, id, timestamp);
      draft := EmptyDraft;
    }

    /** `handleVerifyPass`: the trimmed id is verified and the result shown. */
    method HandleVerifyPass(store: seq<Doc>, reach: Reach, secret: string)
      modifies this`verificationResult, this`isVerifying
      ensures verifyPassId == old(verifyPassId) && donations == old(donations)
      ensures verificationResult == Some(CloudVerdict(store, Trim(old(verifyPassId)), reach, secret))
      ensures !isVerifying
    {
      isVerifying := true;
      verificationResult := None;
      var result := VerifyTrimmed(store, verifyPassId, reach, secret);
      verificationResult := Some(result);
      isVerifying := false;
    }
  }

  /** `verifyFromCloud(id.trim())`: the service trims once more, which changes nothing. */
  method VerifyTrimmed(store: seq<Doc>, id: string, reach: Reach, secret: string) returns (r: VerifyResult)
    ensures r == CloudVerdict(store, Trim(id), reach, secret)
  {
    r := VerifyFromCloud(store, Trim(id), reach, secret);
    TrimIdempotent(id);
  }
}
