/** When the order of an export is sure to survive import and a second export. */
module RoundTripOrder {
  import opened Common
  import opened Flags
  import opened Sorting
  import opened Permutations
  import opened Import
  import opened ImportFacts
  import opened Export
  import opened RoundTrip

  // ---------------------------------------------------------------- every listing can be exported

  /** One way to write a row. */
  function WriteOut(c: Row): IoChallenge {
    IoChallenge(c.title, c.category, c.description, c.state, Some(c.scoring), Some(c.tags), Map(ToIoFlag, c.flags),
                Map(ToIoFile(true), Sort(c.files, NamedBefore)))
  }

  lemma WriteOutWrites(c: Row)
    ensures Written(c, true, WriteOut(c))
  {
    NamesAreOrdered();
    SortOrders(c.files, NamedBefore);
    assert Permuted(c.flags, c.flags);
  }

  lemma ListingExports(rows: seq<Row>, list: seq<Row>)
    requires Listing(rows, list)
    ensures IsExport(rows, true, Map(WriteOut, list))
  {
    forall i | 0 <= i < |list| ensures Written(list[i], true, Map(WriteOut, list)[i]) {
      WriteOutWrites(list[i]);
    }
    assert WrittenAll(list, true, Map(WriteOut, list));
  }

  // ---------------------------------------------------------------- another listing, if times do not rise

  lemma {:induction false} NeighboursRise(stamps: Stamps, n: nat)
    requires forall k: nat :: k + 1 < n ==> stamps(k).at < stamps(k + 1).at
    ensures Rising(stamps, n)
  {
    if n > 0 {
      NeighboursRise(stamps, n - 1);
      forall i: nat | i < n - 1 ensures stamps(i).at < stamps(n - 1).at {
        assert stamps(n - 2).at < stamps(n - 2 + 1).at;
      }
    }
  }

  function Swapped<T>(s: seq<T>, k: nat): (t: seq<T>)
    requires k + 1 < |s|
    ensures |t| == |s| && t[k] == s[k + 1] && t[k + 1] == s[k]
    ensures forall i :: 0 <= i < |s| && i != k && i != k + 1 ==> t[i] == s[i]
  {
    s[..k] + [s[k + 1], s[k]] + s[k + 2..]
  }

  lemma SwappedPermutes<T>(s: seq<T>, k: nat)
    requires k + 1 < |s|
    ensures Permuted(s, Swapped(s, k))
  {
    assert s == s[..k] + [s[k], s[k + 1]] + s[k + 2..];
  }

  predicate Level(a: Row, b: Row) { a.position == b.position && a.createdAt == b.createdAt }

  /** Two neighbours created at one instant can change places. */
  lemma SwappedListing(rows: seq<Row>, k: nat)
    requires Ordered(rows, ListedBefore) && k + 1 < |rows| && Level(rows[k], rows[k + 1])
    ensures Listing(rows, Swapped(rows, k))
  {
    var t := Swapped(rows, k);
    SwappedPermutes(rows, k);
    forall i | 0 <= i < |rows| ensures Level(t[i], rows[i]) {}
    forall i, j | 0 <= i < j < |t| ensures !ListedBefore(t[j], t[i]) {
      assert !ListedBefore(rows[j], rows[i]) && Level(t[i], rows[i]) && Level(t[j], rows[j]);
    }
  }

  /** Rows whose times do not strictly rise have a listing in another order. */
  lemma OtherListing(rows: seq<Row>, k: nat) returns (list: seq<Row>)
    requires Distinct(rows) && k + 1 < |rows| && !ListedBefore(rows[k], rows[k + 1])
    ensures Listing(rows, list) && list != rows
  {
    if Ordered(rows, ListedBefore) {
      list := Swapped(rows, k);
      SwappedListing(rows, k);
    } else {
      list := Sort(rows, ListedBefore);
      SortOrders(rows, ListedBefore);
    }
  }

  // ---------------------------------------------------------------- the condition

  /** An export tells its listing: the same challenges in the same order are the same rows in the same order. */
  lemma SameExportSameListing(x: seq<IoChallenge>, rows: seq<Row>, list: seq<Row>)
    requires UniqueTitles(rows) && Permuted(rows, list) && |x| == |rows|
    requires forall i :: 0 <= i < |x| ==> x[i].title == rows[i].title
    requires SameExport(x, Map(WriteOut, list))
    ensures list == rows
  {
    assert |multiset(list)| == |multiset(rows)|;
    forall i | 0 <= i < |list| ensures list[i] == rows[i] {
      SameTitle(x[i], list[i], Map(WriteOut, list)[i]);
      ByTitle(rows, list, i);
    }
  }

  lemma SameTitle(x: IoChallenge, c: Row, y: IoChallenge)
    requires Same(x, y) && y == WriteOut(c)
    ensures x.title == c.title
  {
  }

  lemma ByTitle(rows: seq<Row>, list: seq<Row>, i: nat)
    requires UniqueTitles(rows) && Permuted(rows, list) && i < |rows| && i < |list| && list[i].title == rows[i].title
    ensures list[i] == rows[i]
  {
    PermutedMember(rows, list, list[i]);
    var k :| 0 <= k < |rows| && rows[k] == list[i];
  }

  ghost predicate Survives(sha: Sha, x: seq<IoChallenge>, stamps: Stamps) {
    forall y :: IsExport(Imported([], Entries(sha, x), stamps), true, y) ==> SameExport(x, y)
  }

  lemma NewRows(file: seq<Entry>, stamps: Stamps, created: seq<Row>)
    requires NewTitles(file) && |created| == |file|
    requires forall i :: 0 <= i < |file| ==> created[i] == Created(stamps(i), file[i])
    ensures UniqueTitles(created) && Distinct(created)
  {
  }

  /** The rows a clean event's export creates, one for each challenge in order. */
  lemma CreatedRows(sha: Sha, rows: seq<Row>, x: seq<IoChallenge>, stamps: Stamps)
    requires Clean(rows) && IsExport(rows, true, x)
    ensures var created := Imported([], Entries(sha, x), stamps);
            && |created| == |x| && UniqueTitles(created) && Distinct(created)
            && forall i :: 0 <= i < |x| ==> created[i].title == x[i].title && created[i].position == 0
                                            && created[i].createdAt == stamps(i).at
  {
    var list: seq<Row> :| Listing(rows, list) && WrittenAll(list, true, x);
    PermutedClean(rows, list);
    ExportedTitles(sha, list, x);
    ImportedFresh(Entries(sha, x), stamps);
    NewRows(Entries(sha, x), stamps, Imported([], Entries(sha, x), stamps));
  }

  /** Where two challenges in a row get times that do not rise, some second export has another order. */
  lemma TiesLoseOrder(sha: Sha, rows: seq<Row>, x: seq<IoChallenge>, stamps: Stamps, k: nat)
    requires Clean(rows) && IsExport(rows, true, x) && k + 1 < |x| && stamps(k).at >= stamps(k + 1).at
    ensures !Survives(sha, x, stamps)
  {
    var created := Imported([], Entries(sha, x), stamps);
    CreatedRows(sha, rows, x, stamps);
    var list := OtherListing(created, k);
    ListingExports(created, list);
    if SameExport(x, Map(WriteOut, list)) {
      SameExportSameListing(x, created, list);
    }
  }

  lemma SurvivorIsClean(sha: Sha, rows: seq<Row>, x: seq<IoChallenge>, stamps: Stamps)
    requires IsExport(rows, true, x) && Survives(sha, x, stamps)
    ensures Clean(rows)
  {
    var created := Imported([], Entries(sha, x), stamps);
    var y := Map(WriteOut, Sort(created, ListedBefore));
    SortOrders(created, ListedBefore);
    ListingExports(created, Sort(created, ListedBefore));
    RoundTripIsClean(sha, rows, x, stamps, y);
  }

  lemma SurvivorRises(sha: Sha, rows: seq<Row>, x: seq<IoChallenge>, stamps: Stamps)
    requires IsExport(rows, true, x) && Survives(sha, x, stamps) && Clean(rows)
    ensures Rising(stamps, |x|)
  {
    forall k: nat | k + 1 < |x| ensures stamps(k).at < stamps(k + 1).at {
      if stamps(k).at >= stamps(k + 1).at {
        TiesLoseOrder(sha, rows, x, stamps, k);
      }
    }
    NeighboursRise(stamps, |x|);
  }

  lemma RisingSurvives(sha: Sha, rows: seq<Row>, x: seq<IoChallenge>, stamps: Stamps)
    requires IsExport(rows, true, x) && Clean(rows) && Rising(stamps, |x|)
    ensures Survives(sha, x, stamps)
  {
    forall y | IsExport(Imported([], Entries(sha, x), stamps), true, y) ensures SameExport(x, y) {
      CleanRoundTrips(sha, rows, x, stamps, y);
    }
  }

  /**
   * Whatever order the database lists rows of one instant in: every second export has the same challenges in the same
   * order as the first exactly when the event is clean and the new rows' creation times strictly rise.
   */
  lemma SurvivesIff(sha: Sha, rows: seq<Row>, x: seq<IoChallenge>, stamps: Stamps)
    requires IsExport(rows, true, x)
    ensures Survives(sha, x, stamps) <==> Clean(rows) && Rising(stamps, |x|)
  {
    if Survives(sha, x, stamps) {
      SurvivorIsClean(sha, rows, x, stamps);
      SurvivorRises(sha, rows, x, stamps);
    } else if Clean(rows) && Rising(stamps, |x|) {
      RisingSurvives(sha, rows, x, stamps);
    }
  }
}
