/** Reading a provider inventory page by page: bounded against any provider, exact against an
    honest one. */
module Pagination {
  import opened Options

  const MAXIMUM_ROWS := 500
  const MAXIMUM_BYTES := 1_048_576

  datatype Text = Text(chars: string)

  /** A row, with its own JSON text. */
  datatype Row = Row(id: Option<string>, name: Option<string>, json: Text)

  /** The text of an identifier, a name or nothing. */
  function Identifier(row: Row): string {
    if row.id.Some? then row.id.value else if row.name.Some? then row.name.value else ""
  }

  datatype Reply = Failure | Page(batch: seq<Row>, more: bool)
  datatype Refusal = Unavailable | Malformed | TooLarge | NoMarker

  /** The provider's answer to its `n`-th request; it may depend on anything that happened. */
  type Provider = (nat, Option<string>) -> Reply

  function Weight(rows: seq<Row>): nat {
    if rows == [] then 0 else Weight(rows[..|rows| - 1]) + |rows[|rows| - 1].json.chars| + 2
  }

  /** The JSON text of a list: brackets, rows, and a comma and a space between rows. */
  function Bytes(batch: seq<Row>): nat { if batch == [] then 2 else Weight(batch) }

  function Joined(batch: seq<Row>): string
    requires batch != []
  {
    if |batch| == 1 then batch[0].json.chars
    else Joined(batch[..|batch| - 1]) + ", " + batch[|batch| - 1].json.chars
  }

  /** The JSON text of a list of rows. */
  function Json(batch: seq<Row>): string { if batch == [] then "[]" else "[" + Joined(batch) + "]" }

  lemma {:induction false} JoinedWeighs(batch: seq<Row>)
    requires batch != []
    ensures |Joined(batch)| + 2 == Weight(batch)
  {
    if |batch| == 1 {
      assert batch[..0] == [];
      assert Weight([]) == 0;
    } else {
      JoinedWeighs(batch[..|batch| - 1]);
    }
  }

  /** What is counted is the length of the JSON text. */
  lemma BytesAreJson(batch: seq<Row>)
    ensures Bytes(batch) == |Json(batch)|
  {
    if batch != [] { JoinedWeighs(batch); }
  }

  lemma {:induction false} WeightAdds(a: seq<Row>, b: seq<Row>)
    ensures Weight(a + b) == Weight(a) + Weight(b)
  {
    if b == [] {
      assert a + b == a;
    } else {
      var rest := b[..|b| - 1];
      WeightAdds(a, rest);
      assert (a + b)[..|a + b| - 1] == a + rest;
    }
  }

  predicate Distinct(rows: seq<Row>) {
    && (forall i :: 0 <= i < |rows| ==> Identifier(rows[i]) != "")
    && (forall i, k :: 0 <= i < k < |rows| ==> Identifier(rows[i]) != Identifier(rows[k]))
  }

  function Identifiers(rows: seq<Row>): set<string> { set row | row in rows :: Identifier(row) }

  /** Add a page's identifiers, refusing an empty or repeated one. */
  method Note(seen: set<string>, batch: seq<Row>, ghost rows: seq<Row>) returns (r: Option<set<string>>)
    requires seen == Identifiers(rows) && Distinct(rows)
    ensures r.Some? <==> Distinct(rows + batch)
    ensures r.Some? ==> r.value == Identifiers(rows + batch)
  {
    var now := seen;
    for i := 0 to |batch|
      invariant Distinct(rows + batch[..i]) && now == Identifiers(rows + batch[..i])
    {
      ghost var all := rows + batch;
      assert (rows + batch[..i + 1]) == (rows + batch[..i]) + [batch[i]];
      assert all[|rows| + i] == batch[i] && all[..|rows| + i] == rows + batch[..i];
      if Identifier(batch[i]) == "" {
        return None;
      }
      if Identifier(batch[i]) in now {
        ghost var row :| row in rows + batch[..i] && Identifier(row) == Identifier(batch[i]);
        ghost var k :| 0 <= k < |rows| + i && all[k] == row;
        return None;
      }
      now := now + {Identifier(batch[i])};
    }
    assert batch[..|batch|] == batch;
    r := Some(now);
  }

  /** What reading pages from here on comes to. */
  function Read(provider: Provider, pages: nat, marker: Option<string>, rows: seq<Row>): Result<seq<Row>, Refusal>
    decreases MAXIMUM_ROWS - |rows|
  {
    match provider(pages, marker)
    case Failure => Err(Unavailable)
    case Page(batch, more) =>
      if |rows| + |batch| > MAXIMUM_ROWS || Weight(rows) + Bytes(batch) > MAXIMUM_BYTES then Err(TooLarge)
      else if !Distinct(rows + batch) then Err(Malformed)
      else if !more then Ok(rows + batch)
      else if batch == [] then Err(Malformed)
      else if batch[|batch| - 1].id.None? then Err(NoMarker)
      else Read(provider, pages + 1, batch[|batch| - 1].id, rows + batch)
  }

  /** The row has a nonempty id, or no id and a nonempty name. */
  predicate Identified(row: Row) {
    if row.id.Some? then row.id.value != "" else row.name.Some? && row.name.value != ""
  }

  /** Read pages until the provider says there are no more. */
  method Inventory(provider: Provider) returns (r: Result<seq<Row>, Refusal>, pages: nat)
    ensures pages <= 501
    ensures r == Read(provider, 0, None, [])
    ensures r.Ok? ==> |r.value| <= 500 && |Json(r.value)| <= 1048576
    ensures r.Ok? ==> forall i, k :: 0 <= i < k < |r.value| && r.value[i].id.Some? ==> r.value[i].id != r.value[k].id
    ensures r.Ok? ==> forall i :: 0 <= i < |r.value| ==> Identified(r.value[i])
  {
    r, pages := Collect(provider);
    if r.Ok? {
      BytesAreJson(r.value);
      NoIdTwice(r.value);
    }
  }

  method Collect(provider: Provider) returns (r: Result<seq<Row>, Refusal>, pages: nat)
    ensures pages <= MAXIMUM_ROWS + 1
    ensures r == Read(provider, 0, None, [])
    ensures r.Ok? ==> |r.value| <= MAXIMUM_ROWS && Distinct(r.value) && Weight(r.value) <= MAXIMUM_BYTES
  {
    var rows: seq<Row>, seen: set<string>, total, marker: Option<string> := [], {}, 0, None;
    pages := 0;
    while true
      invariant |rows| <= MAXIMUM_ROWS && pages <= |rows|
      invariant Distinct(rows) && seen == Identifiers(rows) && total == Weight(rows) <= MAXIMUM_BYTES
      invariant Read(provider, pages, marker, rows) == Read(provider, 0, None, [])
      decreases MAXIMUM_ROWS - |rows|
    {
      var reply := provider(pages, marker);
      if reply.Failure? { return Err(Unavailable), pages + 1; }
      ReadsOn(provider, pages, marker, rows);
      pages := pages + 1;
      var batch := reply.batch;
      total := total + Bytes(batch);
      if |rows| + |batch| > MAXIMUM_ROWS || total > MAXIMUM_BYTES { return Err(TooLarge), pages; }
      var noted := Note(seen, batch, rows);
      if noted.None? { return Err(Malformed), pages; }
      WeightAdds(rows, batch);
      seen, rows := noted.value, rows + batch;
      if !reply.more { return Ok(rows), pages; }
      if batch == [] { return Err(Malformed), pages; }
      if batch[|batch| - 1].id.None? { return Err(NoMarker), pages; }
      marker := batch[|batch| - 1].id;
    }
  }

  lemma NoIdTwice(rows: seq<Row>)
    requires Distinct(rows)
    ensures forall i, k :: 0 <= i < k < |rows| && rows[i].id.Some? ==> rows[i].id != rows[k].id
    ensures forall i :: 0 <= i < |rows| ==> Identified(rows[i])
  {
    forall i | 0 <= i < |rows| ensures Identified(rows[i]) { assert Identifier(rows[i]) != ""; }
    forall i, k | 0 <= i < k < |rows| && rows[i].id.Some? ensures rows[i].id != rows[k].id {
      assert Identifier(rows[i]) != Identifier(rows[k]);
    }
  }

  /** The index after a marker: the start, or after the row that carries it. */
  ghost predicate Resumes(listing: seq<Row>, marker: Option<string>, start: nat) {
    && start <= |listing|
    && (marker.None? ==> start == 0)
    && (marker.Some? ==> start > 0 && listing[start - 1].id == marker)
  }

  /** A page of the listing that starts at `start`, and whether there is more. */
  predicate Slice(page: Reply, listing: seq<Row>, start: nat) {
    && page.Page? && start + |page.batch| <= |listing|
    && page.batch == listing[start..start + |page.batch|]
    && (if page.more then page.batch != [] else start + |page.batch| == |listing|)
  }

  /** The provider pages through one listing, in pages of its own choosing. */
  ghost predicate Honest(provider: Provider, listing: seq<Row>) {
    forall n: nat, marker: Option<string>, start: nat :: Resumes(listing, marker, start) ==>
      Slice(provider(n, marker), listing, start)
  }

  /** Small enough however it is cut; an empty last page costs two bytes. */
  predicate Fits(listing: seq<Row>) { |listing| <= MAXIMUM_ROWS && Weight(listing) + 2 <= MAXIMUM_BYTES }

  /** What a page that continues the rows read so far leaves to decide. */
  ghost predicate Continues(page: Reply, listing: seq<Row>, rows: seq<Row>) {
    && page.Page? && rows + page.batch <= listing && Distinct(rows + page.batch)
    && |rows| + |page.batch| <= |listing| && Weight(rows) + Bytes(page.batch) <= Weight(listing) + 2
    && (!page.more ==> rows + page.batch == listing)
    && (page.more ==> page.batch != [] && page.batch[|page.batch| - 1] == listing[|rows| + |page.batch| - 1])
  }

  lemma SliceContinues(page: Reply, listing: seq<Row>, rows: seq<Row>)
    requires Distinct(listing) && rows <= listing && Slice(page, listing, |rows|)
    ensures Continues(page, listing, rows)
  {
    var stop := |rows| + |page.batch|;
    assert rows + page.batch == listing[..stop];
    PrefixIsDistinct(listing, stop);
    PrefixIsLighter(listing, stop);
    WeightAdds(rows, page.batch);
    assert page.more ==> page.batch[|page.batch| - 1] == listing[stop - 1];
  }

  lemma PrefixIsDistinct(listing: seq<Row>, n: nat)
    requires Distinct(listing) && n <= |listing|
    ensures Distinct(listing[..n])
  {
    var front := listing[..n];
    forall i, k | 0 <= i < k < n ensures Identifier(front[i]) != Identifier(front[k]) {
      assert front[i] == listing[i] && front[k] == listing[k];
    }
  }

  lemma PrefixIsLighter(listing: seq<Row>, n: nat)
    requires n <= |listing|
    ensures Weight(listing[..n]) <= Weight(listing)
  {
    assert listing == listing[..n] + listing[n..];
    WeightAdds(listing[..n], listing[n..]);
  }

  /** No page that announces more ends in a row without an id. */
  ghost predicate Marked(provider: Provider, listing: seq<Row>) {
    forall n: nat, marker: Option<string>, start: nat :: Resumes(listing, marker, start) ==> MarkedPage(provider(n, marker))
  }

  predicate MarkedPage(page: Reply) { page.Page? && page.more && page.batch != [] ==> page.batch[|page.batch| - 1].id.Some? }

  /** Reading, one page at a time. */
  lemma ReadsOn(provider: Provider, pages: nat, marker: Option<string>, rows: seq<Row>)
    requires provider(pages, marker).Page?
    ensures var page, r := provider(pages, marker), Read(provider, pages, marker, rows);
            if |rows| + |page.batch| > MAXIMUM_ROWS || Weight(rows) + Bytes(page.batch) > MAXIMUM_BYTES then r == Err(TooLarge)
            else if !Distinct(rows + page.batch) then r == Err(Malformed)
            else if !page.more then r == Ok(rows + page.batch)
            else if page.batch == [] then r == Err(Malformed)
            else if page.batch[|page.batch| - 1].id.None? then r == Err(NoMarker)
            else r == Read(provider, pages + 1, page.batch[|page.batch| - 1].id, rows + page.batch)
  {
  }

  /** What one page that continues the rows comes to. */
  lemma ContinuesReading(provider: Provider, listing: seq<Row>, pages: nat, marker: Option<string>, rows: seq<Row>)
    requires Continues(provider(pages, marker), listing, rows)
    ensures var page, r := provider(pages, marker), Read(provider, pages, marker, rows);
            || (r == Err(TooLarge) && !Fits(listing))
            || (!page.more && r == Ok(listing))
            || (page.more && page.batch[|page.batch| - 1].id.None? && r == Err(NoMarker))
            || (page.more && page.batch[|page.batch| - 1].id.Some? && |rows| + |page.batch| <= MAXIMUM_ROWS
                && r == Read(provider, pages + 1, page.batch[|page.batch| - 1].id, rows + page.batch))
  {
    ReadsOn(provider, pages, marker, rows);
  }

  /** Against an honest provider the only obstacle is a page with more to come whose last row has
      no id; without such pages the result is the whole listing in order. */
  lemma {:induction false} HonestReading(provider: Provider, listing: seq<Row>, pages: nat, marker: Option<string>, rows: seq<Row>)
    requires Honest(provider, listing) && Distinct(listing)
    requires rows <= listing && Resumes(listing, marker, |rows|)
    ensures var r := Read(provider, pages, marker, rows);
            && (r.Ok? ==> r.value == listing)
            && (Fits(listing) ==> r == Ok(listing) || r == Err(NoMarker))
            && (Fits(listing) && Marked(provider, listing) ==> r == Ok(listing))
    decreases MAXIMUM_ROWS - |rows|
  {
    var page := provider(pages, marker);
    assert Slice(page, listing, |rows|);
    SliceContinues(page, listing, rows);
    ContinuesReading(provider, listing, pages, marker, rows);
    if page.more && page.batch[|page.batch| - 1].id.Some? && |rows| + |page.batch| <= MAXIMUM_ROWS {
      HonestReading(provider, listing, pages + 1, page.batch[|page.batch| - 1].id, rows + page.batch);
    }
  }

  ghost function StartOf(listing: seq<Row>, marker: Option<string>): (start: nat)
    requires exists start: nat :: Resumes(listing, marker, start)
    ensures Resumes(listing, marker, start)
  {
    var start: nat :| Resumes(listing, marker, start);
    start
  }

  /** The page after a marker of a listing that is cut once, after row `i`. */
  ghost function Cut(listing: seq<Row>, i: nat): Provider
    requires i < |listing|
  {
    (n: nat, marker: Option<string>) =>
      if marker.None? then Page(listing[..i + 1], true)
      else if exists start: nat :: Resumes(listing, marker, start)
      then Page(listing[StartOf(listing, marker)..], false)
      else Failure
  }

  lemma CutIsHonest(listing: seq<Row>, i: nat)
    requires Distinct(listing) && i < |listing|
    ensures Honest(Cut(listing, i), listing)
  {
    forall n: nat, marker: Option<string>, start: nat | Resumes(listing, marker, start)
      ensures Slice(Cut(listing, i)(n, marker), listing, start)
    {
      if marker.Some? {
        var other := StartOf(listing, marker);
        SameRow(listing, start - 1, other - 1);
        assert listing[start..start + |listing[start..]|] == listing[start..];
      }
    }
  }

  /** A listing is returned whole by every honest cut into pages if and only if every row carries
      an id. Keypairs do not, so they are read only as long as one page holds them all. */
  lemma ReadableExactly(listing: seq<Row>)
    requires Distinct(listing) && |listing| <= 500 && |Json(listing)| + 2 <= 1048576
    ensures (forall i :: 0 <= i < |listing| ==> listing[i].id.Some?) <==>
            (forall provider: Provider :: Honest(provider, listing) ==> Read(provider, 0, None, []) == Ok(listing))
  {
    BytesAreJson(listing);
    if forall i :: 0 <= i < |listing| ==> listing[i].id.Some? {
      forall provider: Provider | Honest(provider, listing) ensures Read(provider, 0, None, []) == Ok(listing) {
        forall n: nat, marker: Option<string>, start: nat | Resumes(listing, marker, start)
          ensures MarkedPage(provider(n, marker))
        {
          var page := provider(n, marker);
          assert Slice(page, listing, start);
          if page.batch != [] { assert page.batch[|page.batch| - 1] == listing[start + |page.batch| - 1]; }
        }
        HonestReading(provider, listing, 0, None, []);
      }
    } else {
      var i :| 0 <= i < |listing| && listing[i].id.None?;
      CutIsHonest(listing, i);
      CutIsRefused(listing, i);
    }
  }

  /** A first page that announces more and ends in a row without an id is the end of the reading. */
  lemma UnmarkedIsRefused(provider: Provider, page: Reply, listing: seq<Row>)
    requires provider(0, None) == page && Slice(page, listing, 0) && page.more && Distinct(listing) && Fits(listing)
    requires page.batch[|page.batch| - 1].id.None?
    ensures Read(provider, 0, None, []) == Err(NoMarker)
  {
    SliceContinues(page, listing, []);
    assert [] + page.batch == page.batch;
    ReadStops(provider, page);
  }

  lemma ReadStops(provider: Provider, page: Reply)
    requires provider(0, None) == page && page.Page? && page.more && page.batch != []
    requires |page.batch| <= MAXIMUM_ROWS && Bytes(page.batch) <= MAXIMUM_BYTES && Distinct(page.batch)
    requires page.batch[|page.batch| - 1].id.None?
    ensures Read(provider, 0, None, []) == Err(NoMarker)
  {
    assert [] + page.batch == page.batch;
    assert Weight([]) == 0;
  }

  /** So is the listing cut after such a row. */
  lemma CutIsRefused(listing: seq<Row>, i: nat)
    requires Distinct(listing) && Fits(listing) && i < |listing| && listing[i].id.None?
    ensures Read(Cut(listing, i), 0, None, []) == Err(NoMarker)
  {
    var page := Cut(listing, i)(0, None);
    assert page == Page(listing[..i + 1], true);
    UnmarkedIsRefused(Cut(listing, i), page, listing);
  }

  lemma SameRow(listing: seq<Row>, i: nat, k: nat)
    requires Distinct(listing) && i < |listing| && k < |listing| && Identifier(listing[i]) == Identifier(listing[k])
    ensures i == k
  {
  }

  function Whole(listing: seq<Row>): Provider { (n: nat, marker: Option<string>) => Page(listing, false) }

  /** A listing on a single page is read whole, with ids or without, exactly when it is within the
      limits and nothing is unidentified or listed twice. */
  lemma OnePageIsRead(listing: seq<Row>)
    ensures Read(Whole(listing), 0, None, []) == Ok(listing) <==>
            Distinct(listing) && |listing| <= 500 && |Json(listing)| <= 1048576
  {
    assert [] + listing == listing;
    BytesAreJson(listing);
  }

  function Keypairs(): seq<Row> { [Row(None, Some("a"), Text("{}")), Row(None, Some("b"), Text("{}"))] }

  lemma KeypairsFit()
    ensures Distinct(Keypairs()) && Fits(Keypairs())
  {
    assert Identifier(Keypairs()[0]) == "a" && Identifier(Keypairs()[1]) == "b";
    assert Weight(Keypairs()) == Weight(Keypairs()[..1]) + 4;
    assert Keypairs()[..1] == [Keypairs()[0]];
    assert Weight([Keypairs()[0]]) == Weight([]) + 4;
  }

  /** Two keypairs: read whole from one page, refused when an honest provider pages them. */
  lemma KeypairsNeedOnePage()
    ensures Read(Whole(Keypairs()), 0, None, []) == Ok(Keypairs())
    ensures Honest(Cut(Keypairs(), 0), Keypairs()) && Read(Cut(Keypairs(), 0), 0, None, []) == Err(NoMarker)
  {
    KeypairsFit();
    OnePageIsRead(Keypairs());
    CutIsHonest(Keypairs(), 0);
    CutIsRefused(Keypairs(), 0);
  }
}
