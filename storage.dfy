/** The daily-bar store (src/data/storage.py). The directory of per-symbol files becomes a map
    from file key to the stored frame; reading and writing the files is not modelled. */
module Storage {
  import opened Wrappers
  import opened Types
  import Text

  /** The columns a frame must have to be saved. */
  const RequiredColumns: set<string> := {"symbol", "date", "open", "high", "low", "close"}

  /** A frame: its column names and its rows. */
  datatype Frame = Frame(columns: set<string>, rows: seq<Bar>)

  /** The file key of a symbol: every '.' becomes '_'. */
  function FileKey(symbol: string): (key: string)
    ensures |key| == |symbol| && '.' !in key
    ensures forall i :: 0 <= i < |symbol| && symbol[i] != '.' ==> key[i] == symbol[i]
  {
    Text.Replace(symbol, '.', '_')
  }

  /** The symbol recovered from a file key: every '_' becomes '.'. */
  function SymbolOfKey(key: string): (symbol: string)
    ensures |symbol| == |key| && '_' !in symbol
  {
    Text.Replace(key, '_', '.')
  }

  /** A symbol without '_' survives the trip to a file key and back. */
  lemma KeyRoundTrip(symbol: string)
    requires '_' !in symbol
    ensures SymbolOfKey(FileKey(symbol)) == symbol
  {
    var back := SymbolOfKey(FileKey(symbol));
    assert forall i :: 0 <= i < |symbol| ==> back[i] == symbol[i];
  }

  /** A symbol that contains '_' comes back with '.' in its place. */
  lemma UnderscoreDoesNotRoundTrip()
    ensures SymbolOfKey(FileKey("A_B")) == "A.B"
  {
    var back := SymbolOfKey(FileKey("A_B"));
    assert back[0] == 'A' && back[1] == '.' && back[2] == 'B';
  }

  /** Every row no later than every row after it. */
  predicate SortedByDate(rows: seq<Bar>)
  {
    forall i, j :: 0 <= i < j < |rows| ==> rows[i].date <= rows[j].date
  }

  /** `x` placed before the first row of `s` that is not earlier than it. */
  function InsertByDate(x: Bar, s: seq<Bar>): (r: seq<Bar>)
    ensures multiset(r) == multiset(s) + multiset{x}
    ensures forall y :: y in r <==> y == x || y in s
  {
    if |s| == 0 then [x]
    else if x.date <= s[0].date then [x] + s
    else
      assert s == [s[0]] + s[1..];
      [s[0]] + InsertByDate(x, s[1..])
  }

  /** Inserting into rows in date order keeps them in date order. */
  lemma {:induction false} InsertByDateSorted(x: Bar, s: seq<Bar>)
    requires SortedByDate(s)
    ensures SortedByDate(InsertByDate(x, s))
  {
    if |s| > 0 && x.date > s[0].date {
      InsertByDateSorted(x, s[1..]);
      var rest := InsertByDate(x, s[1..]);
      forall k | 0 <= k < |rest|
        ensures s[0].date <= rest[k].date
      {
        assert rest[k] in rest;
        if rest[k] != x {
          var j :| 0 <= j < |s[1..]| && s[1..][j] == rest[k];
          assert s[j + 1] == rest[k];
        }
      }
      assert InsertByDate(x, s) == [s[0]] + rest;
    }
  }

  /** The rows ordered by date; rows with the same date keep their order. */
  function SortByDate(rows: seq<Bar>): (r: seq<Bar>)
    ensures SortedByDate(r)
    ensures multiset(r) == multiset(rows)
    ensures forall y :: y in r <==> y in rows
  {
    if |rows| == 0 then []
    else
      assert rows == [rows[0]] + rows[1..];
      InsertByDateSorted(rows[0], SortByDate(rows[1..]));
      InsertByDate(rows[0], SortByDate(rows[1..]))
  }

  /** Sorting rows that are already in date order leaves them as they are. */
  lemma {:induction false} SortKeepsSorted(rows: seq<Bar>)
    requires SortedByDate(rows)
    ensures SortByDate(rows) == rows
  {
    if |rows| > 0 {
      SortKeepsSorted(rows[1..]);
    }
  }

  /** Sorting twice is sorting once. */
  lemma SortIsIdempotent(rows: seq<Bar>)
    ensures SortByDate(SortByDate(rows)) == SortByDate(rows)
  {
    SortKeepsSorted(SortByDate(rows));
  }

  /** The (symbol, date) pair that identifies a row. */
  function KeyOf(b: Bar): (Option<string>, Date)
  {
    (b.symbol, b.date)
  }

  /** No two rows share a (symbol, date) pair. */
  predicate DistinctKeys(rows: seq<Bar>)
  {
    forall i, j :: 0 <= i < j < |rows| ==> KeyOf(rows[i]) != KeyOf(rows[j])
  }

  /** No later row has the same (symbol, date) pair as row `i`. */
  predicate LastOfKey(rows: seq<Bar>, i: int)
    requires 0 <= i < |rows|
  {
    forall j :: i < j < |rows| ==> KeyOf(rows[j]) != KeyOf(rows[i])
  }

  /** Inserting a row whose key is new keeps the keys distinct. */
  lemma {:induction false} InsertKeepsDistinctKeys(x: Bar, s: seq<Bar>)
    requires SortedByDate(s) && DistinctKeys(s)
    requires forall y :: y in s ==> KeyOf(y) != KeyOf(x)
    ensures DistinctKeys(InsertByDate(x, s))
  {
    if |s| > 0 && x.date > s[0].date {
      InsertKeepsDistinctKeys(x, s[1..]);
      var rest := InsertByDate(x, s[1..]);
      forall j | 0 <= j < |rest|
        ensures KeyOf(rest[j]) != KeyOf(s[0])
      {
        assert rest[j] in rest;
        if rest[j] != x {
          var k :| 1 <= k < |s| && s[k] == rest[j];
        }
      }
    }
  }

  /** Sorting keeps the keys distinct. */
  lemma {:induction false} SortKeepsDistinctKeys(rows: seq<Bar>)
    requires DistinctKeys(rows)
    ensures DistinctKeys(SortByDate(rows))
  {
    if |rows| > 0 {
      SortKeepsDistinctKeys(rows[1..]);
      forall y | y in SortByDate(rows[1..])
        ensures KeyOf(y) != KeyOf(rows[0])
      {
        var k :| 0 <= k < |rows[1..]| && rows[1..][k] == y;
        assert rows[k + 1] == y;
      }
      InsertKeepsDistinctKeys(rows[0], SortByDate(rows[1..]));
    }
  }

  /** `drop_duplicates(subset=['symbol', 'date'], keep='last')`: of the rows sharing a key,
      only the last is kept, in the original order. */
  function DedupKeepLast(rows: seq<Bar>): (r: seq<Bar>)
    ensures DistinctKeys(r)
    ensures forall y :: y in r ==> exists i :: 0 <= i < |rows| && rows[i] == y && LastOfKey(rows, i)
    ensures forall i :: 0 <= i < |rows| && LastOfKey(rows, i) ==> rows[i] in r
  {
    if |rows| == 0 then []
    else
      var tail := rows[1..];
      var rest := DedupKeepLast(tail);
      assert forall i :: 1 <= i < |rows| ==> (LastOfKey(rows, i) <==> LastOfKey(tail, i - 1));
      if exists j :: 1 <= j < |rows| && KeyOf(rows[j]) == KeyOf(rows[0]) then
        rest
      else
        assert LastOfKey(rows, 0);
        assert forall y :: y in rest ==> KeyOf(y) != KeyOf(rows[0]) by {
          forall y | y in rest
            ensures KeyOf(y) != KeyOf(rows[0])
          {
            var i :| 0 <= i < |tail| && tail[i] == y && LastOfKey(tail, i);
            assert rows[i + 1] == y;
          }
        }
        [rows[0]] + rest
  }

  /** The rows `update_daily_data` stores: existing then new, one row per key with the later
      row winning, ordered by date. */
  function Merged(existing: seq<Bar>, incoming: seq<Bar>): seq<Bar>
  {
    SortByDate(DedupKeepLast(existing + incoming))
  }

  /** A merge is ordered by date and holds no key twice. */
  lemma MergeIsSortedAndDistinct(existing: seq<Bar>, incoming: seq<Bar>)
    ensures SortedByDate(Merged(existing, incoming))
    ensures DistinctKeys(Merged(existing, incoming))
  {
    SortKeepsDistinctKeys(DedupKeepLast(existing + incoming));
  }

  /** The last incoming row of each key is kept by a merge. */
  lemma MergeKeepsNewRows(existing: seq<Bar>, incoming: seq<Bar>, k: int)
    requires 0 <= k < |incoming| && LastOfKey(incoming, k)
    ensures incoming[k] in Merged(existing, incoming)
  {
    var all := existing + incoming;
    assert all[|existing| + k] == incoming[k];
    assert LastOfKey(all, |existing| + k);
  }

  /** A merge adds nothing, and a key the incoming rows have is kept only from them. */
  lemma MergeTakesIncomingKeys(existing: seq<Bar>, incoming: seq<Bar>, y: Bar)
    requires y in Merged(existing, incoming)
    ensures y in existing || y in incoming
    ensures (exists k :: 0 <= k < |incoming| && KeyOf(incoming[k]) == KeyOf(y)) ==> y in incoming
  {
    var all := existing + incoming;
    var i :| 0 <= i < |all| && all[i] == y && LastOfKey(all, i);
    if exists k :: 0 <= k < |incoming| && KeyOf(incoming[k]) == KeyOf(y) {
      var k :| 0 <= k < |incoming| && KeyOf(incoming[k]) == KeyOf(y);
      assert all[|existing| + k] == incoming[k];
      NoLaterRowHasTheKey(all, i, |existing| + k);
    }
    if i >= |existing| {
      assert all[i] == incoming[i - |existing|];
    }
  }

  /** A row with the same key as a last-of-key row is not after it. */
  lemma NoLaterRowHasTheKey(rows: seq<Bar>, i: int, p: int)
    requires 0 <= i < |rows| && LastOfKey(rows, i)
    requires 0 <= p < |rows| && KeyOf(rows[p]) == KeyOf(rows[i])
    ensures p <= i
  {
  }

  /** Start and end bounds of a date filter; None leaves that side open. */
  predicate InRange(d: Date, start: Option<Date>, end: Option<Date>)
  {
    (start.None? || start.value <= d) && (end.None? || d <= end.value)
  }

  /** The rows dated within the bounds, in their order. */
  function FilterByDate(rows: seq<Bar>, start: Option<Date>, end: Option<Date>): (r: seq<Bar>)
    ensures forall y :: y in r <==> y in rows && InRange(y.date, start, end)
    ensures start.None? && end.None? ==> r == rows
  {
    if |rows| == 0 then []
    else
      var rest := FilterByDate(rows[1..], start, end);
      assert rows == [rows[0]] + rows[1..];
      if InRange(rows[0].date, start, end) then [rows[0]] + rest else rest
  }

  /** Filtering keeps every in-range row as often as it occurs and drops every other row. */
  lemma {:induction false} FilterByDateCounts(rows: seq<Bar>, start: Option<Date>, end: Option<Date>)
    ensures forall y :: multiset(FilterByDate(rows, start, end))[y] == if InRange(y.date, start, end) then multiset(rows)[y] else 0
  {
    if |rows| > 0 {
      FilterByDateCounts(rows[1..], start, end);
      assert rows == [rows[0]] + rows[1..];
      assert multiset(rows) == multiset{rows[0]} + multiset(rows[1..]);
    }
  }

  /** Filtering keeps date order. */
  lemma {:induction false} FilterByDateSorted(rows: seq<Bar>, start: Option<Date>, end: Option<Date>)
    requires SortedByDate(rows)
    ensures SortedByDate(FilterByDate(rows, start, end))
  {
    if |rows| > 0 {
      FilterByDateSorted(rows[1..], start, end);
      assert rows == [rows[0]] + rows[1..];
    }
  }

  /** In a date-ordered frame the earliest date is the first row's and the latest the last's. */
  lemma FirstAndLastOfSorted(rows: seq<Bar>)
    requires |rows| > 0
    ensures SortedByDate(rows) ==> FirstDate(rows) == rows[0].date && LastDate(rows) == rows[|rows| - 1].date
  {
    if SortedByDate(rows) {
      var i :| 0 <= i < |rows| && rows[i].date == FirstDate(rows);
      assert rows[0].date <= rows[i].date;
      var j :| 0 <= j < |rows| && rows[j].date == LastDate(rows);
      assert rows[j].date <= rows[|rows| - 1].date;
    }
  }

  /** The earliest and latest dates of some rows: those of the first and last row when the rows
      are in date order. */
  function DateRange(rows: seq<Bar>): (r: (Date, Date))
    requires |rows| > 0
    ensures forall i :: 0 <= i < |rows| ==> r.0 <= rows[i].date <= r.1
    ensures exists i :: 0 <= i < |rows| && rows[i].date == r.0
    ensures exists i :: 0 <= i < |rows| && rows[i].date == r.1
    ensures SortedByDate(rows) ==> r == (rows[0].date, rows[|rows| - 1].date)
  {
    FirstAndLastOfSorted(rows);
    (FirstDate(rows), LastDate(rows))
  }

  /** Every stored frame has the required columns and at least one row, in date order. */
  ghost predicate ValidStore(files: map<string, Frame>)
  {
    forall key :: key in files ==>
      RequiredColumns <= files[key].columns && |files[key].rows| > 0 && SortedByDate(files[key].rows)
  }

  /** The store after `save_daily_data`: unchanged for an empty frame, a DataError when a
      required column is missing, otherwise the symbol's file holds the rows sorted by date and
      every other file is untouched. */
  function Saved(files: map<string, Frame>, symbol: string, data: Frame): (r: Result<map<string, Frame>, Error>)
    ensures |data.rows| == 0 ==> r == Ok(files)
    ensures |data.rows| > 0 && !(RequiredColumns <= data.columns) ==> r == Err(DataFailure)
    ensures |data.rows| > 0 && RequiredColumns <= data.columns ==>
      && r.Ok?
      && r.value.Keys == files.Keys + {FileKey(symbol)}
      && (forall key :: key in files && key != FileKey(symbol) ==> r.value[key] == files[key])
      && r.value[FileKey(symbol)].columns == data.columns
      && SortedByDate(r.value[FileKey(symbol)].rows)
      && multiset(r.value[FileKey(symbol)].rows) == multiset(data.rows)
    ensures |data.rows| > 0 && r.Ok? && SortedByDate(data.rows) ==> r.value[FileKey(symbol)].rows == data.rows
  {
    if |data.rows| == 0 then Ok(files)
    else if !(RequiredColumns <= data.columns) then Err(DataFailure)
    else
      if SortedByDate(data.rows) then SortKeepsSorted(data.rows); Ok(files[FileKey(symbol) := Frame(data.columns, SortByDate(data.rows))])
      else Ok(files[FileKey(symbol) := Frame(data.columns, SortByDate(data.rows))])
  }

  /** The store after `update_daily_data`: unchanged for empty new data; a new symbol is
      saved as it is; a stored symbol gets its rows merged with the new ones by `Merged`,
      a KeyError when neither frame has a symbol or a date column. */
  function Updated(files: map<string, Frame>, symbol: string, newData: Frame): (r: Result<map<string, Frame>, Error>)
    ensures |newData.rows| == 0 ==> r == Ok(files)
    ensures |newData.rows| > 0 && FileKey(symbol) !in files ==> r == Saved(files, symbol, newData)
    ensures |newData.rows| > 0 && FileKey(symbol) in files ==>
      var stored := files[FileKey(symbol)];
      var columns := stored.columns + newData.columns;
      && (("symbol" !in columns || "date" !in columns) ==> r == Err(KeyFailure))
      && ("symbol" in columns && "date" in columns && !(RequiredColumns <= columns) ==> r == Err(DataFailure))
      && (RequiredColumns <= columns ==>
            r == Ok(files[FileKey(symbol) := Frame(columns, Merged(stored.rows, newData.rows))]))
  {
    if |newData.rows| == 0 then Ok(files)
    else if FileKey(symbol) !in files then Saved(files, symbol, newData)
    else
      var stored := files[FileKey(symbol)];
      var columns := stored.columns + newData.columns;
      if "symbol" !in columns || "date" !in columns then Err(KeyFailure)
      else
        var all := stored.rows + newData.rows;
        assert LastOfKey(all, |all| - 1);
        var merged := Merged(stored.rows, newData.rows);
        MergeIsSortedAndDistinct(stored.rows, newData.rows);
        var r := Saved(files, symbol, Frame(columns, merged));
        assert r.Ok? ==> r.value == files[FileKey(symbol) := Frame(columns, merged)];
        r
  }

  /** Saving keeps a valid store valid. */
  lemma SavedKeepsValid(files: map<string, Frame>, symbol: string, data: Frame)
    ensures ValidStore(files) && Saved(files, symbol, data).Ok? ==> ValidStore(Saved(files, symbol, data).value)
  {
    var r := Saved(files, symbol, data);
    if r.Ok? && |data.rows| > 0 {
      assert |r.value[FileKey(symbol)].rows| > 0 by {
        assert data.rows[0] in multiset(data.rows);
      }
    }
  }

  /** Updating keeps a valid store valid. */
  lemma UpdatedKeepsValid(files: map<string, Frame>, symbol: string, newData: Frame)
    ensures ValidStore(files) && Updated(files, symbol, newData).Ok? ==> ValidStore(Updated(files, symbol, newData).value)
  {
    if |newData.rows| > 0 {
      if FileKey(symbol) !in files {
        SavedKeepsValid(files, symbol, newData);
      } else {
        var stored := files[FileKey(symbol)];
        var columns := stored.columns + newData.columns;
        if RequiredColumns <= columns {
          SavedKeepsValid(files, symbol, Frame(columns, Merged(stored.rows, newData.rows)));
        }
      }
    }
  }

  /** The store: for each file key, the frame saved under it. */
  class DataStorage {
    var files: map<string, Frame>

    ghost predicate Valid()
      reads this
    {
      ValidStore(files)
    }

    /** A store over a directory that already holds `files`. */
    constructor (files: map<string, Frame>)
      ensures this.files == files
    {
      this.files := files;
    }

    predicate HasDailyData(symbol: string)
      reads this
    {
      FileKey(symbol) in files
    }

    /** `save_daily_data`, with the outcome `Saved` describes. */
    method SaveDailyData(symbol: string, data: Frame) returns (e: Option<Error>)
      modifies this
      ensures e.None? ==> Saved(old(files), symbol, data) == Ok(files)
      ensures e.Some? ==> Saved(old(files), symbol, data) == Err(e.value) && files == old(files)
      ensures old(Valid()) ==> Valid()
    {
      if |data.rows| == 0 {
        return None;
      }
      if !(RequiredColumns <= data.columns) {
        return Some(DataFailure);
      }
      SavedKeepsValid(files, symbol, data);
      files := files[FileKey(symbol) := Frame(data.columns, SortByDate(data.rows))];
      return None;
    }

    /** `load_daily_data`: a DataNotFoundError for a symbol with no file; otherwise the stored
        rows dated within the bounds. */
    function LoadDailyData(symbol: string, start: Option<Date>, end: Option<Date>): (r: Result<Frame, Error>)
      reads this
      ensures r.Err? <==> !HasDailyData(symbol)
      ensures r.Err? ==> r.error == DataNotFound
      ensures r.Ok? ==> r.value.columns == files[FileKey(symbol)].columns
      ensures r.Ok? ==> forall y :: y in r.value.rows <==> y in files[FileKey(symbol)].rows && InRange(y.date, start, end)
      ensures r.Ok? && start.None? && end.None? ==> r.value == files[FileKey(symbol)]
    {
      if FileKey(symbol) !in files then Err(DataNotFound)
      else
        var stored := files[FileKey(symbol)];
        Ok(Frame(stored.columns, FilterByDate(stored.rows, start, end)))
    }

    /** `get_data_date_range`: the earliest and latest stored dates, or None without rows. */
    function GetDataDateRange(symbol: string): (r: Option<(Date, Date)>)
      reads this
      ensures r.None? <==> !HasDailyData(symbol) || |files[FileKey(symbol)].rows| == 0
      ensures r.Some? ==>
        var rows := files[FileKey(symbol)].rows;
        && (forall i :: 0 <= i < |rows| ==> r.value.0 <= rows[i].date <= r.value.1)
        && (exists i :: 0 <= i < |rows| && rows[i].date == r.value.0)
        && (exists i :: 0 <= i < |rows| && rows[i].date == r.value.1)
      ensures r.Some? && Valid() ==>
        var rows := files[FileKey(symbol)].rows;
        r.value == (rows[0].date, rows[|rows| - 1].date)
    {
      if !HasDailyData(symbol) then None
      else
        var rows := files[FileKey(symbol)].rows;
        if |rows| == 0 then None
        else
          Some(DateRange(rows))
    }

    /** `update_daily_data`, with the outcome `Updated` describes; the merge is saved through
        `SaveDailyData`, as in the source. */
    method UpdateDailyData(symbol: string, newData: Frame) returns (e: Option<Error>)
      modifies this
      ensures e.None? ==> Updated(old(files), symbol, newData) == Ok(files)
      ensures e.Some? ==> Updated(old(files), symbol, newData) == Err(e.value) && files == old(files)
      ensures old(Valid()) ==> Valid()
    {
      if |newData.rows| == 0 {
        return None;
      }
      if HasDailyData(symbol) {
        var existing := LoadDailyData(symbol, None, None).value;
        var columns := existing.columns + newData.columns;
        if "symbol" !in columns || "date" !in columns {
          return Some(KeyFailure);
        }
        UpdatedKeepsValid(files, symbol, newData);
        var combined := DedupKeepLast(existing.rows + newData.rows);
        e := SaveDailyData(symbol, Frame(columns, SortByDate(combined)));
      } else {
        e := SaveDailyData(symbol, newData);
      }
    }

    /** `list_symbols`: the symbol of every stored file, in string order. */
    method ListSymbols() returns (symbols: seq<string>)
      ensures StringsSorted(symbols)
      ensures |symbols| == |files|
      ensures forall key :: key in files ==> SymbolOfKey(key) in symbols
      ensures forall s :: s in symbols ==> exists key :: key in files && s == SymbolOfKey(key)
    {
      var found := CollectSymbols();
      symbols := SortStrings(found);
      assert |symbols| == |multiset(symbols)| == |multiset(found)| == |found|;
      forall s | s in symbols
        ensures s in found
      {
        assert s in multiset(symbols);
      }
      forall s | s in found
        ensures s in symbols
      {
        assert s in multiset(found);
      }
    }

    /** The symbol of every stored file, in no particular order. */
    method CollectSymbols() returns (found: seq<string>)
      ensures |found| == |files|
      ensures forall key :: key in files ==> SymbolOfKey(key) in found
      ensures forall s :: s in found ==> exists key :: key in files && s == SymbolOfKey(key)
    {
      found := [];
      var rest := files.Keys;
      while rest != {}
        invariant rest <= files.Keys
        invariant |found| + |rest| == |files.Keys|
        invariant forall key :: key in files.Keys - rest ==> SymbolOfKey(key) in found
        invariant forall s :: s in found ==> exists key :: key in files.Keys - rest && s == SymbolOfKey(key)
        decreases |rest|
      {
        var key :| key in rest;
        found := found + [SymbolOfKey(key)];
        rest := rest - {key};
      }
    }

    /** `delete_symbol_data`: the symbol's file removed, if there is one. */
    method DeleteSymbolData(symbol: string)
      modifies this
      ensures files == old(files) - {FileKey(symbol)}
      ensures !HasDailyData(symbol)
      ensures old(Valid()) ==> Valid()
    {
      files := files - {FileKey(symbol)};
    }
  }

  /** Each string no greater than the next, in Python's string order. */
  predicate StringsSorted(s: seq<string>)
  {
    forall i :: 0 < i < |s| ==> Text.LessEq(s[i - 1], s[i])
  }

  function InsertString(x: string, s: seq<string>): (r: seq<string>)
    requires StringsSorted(s)
    ensures StringsSorted(r)
    ensures multiset(r) == multiset(s) + multiset{x}
    ensures r[0] == x || (|s| > 0 && r[0] == s[0])
  {
    if |s| == 0 then [x]
    else if Text.LessEq(x, s[0]) then [x] + s
    else
      Text.LessEqTotal(x, s[0]);
      var rest := InsertString(x, s[1..]);
      assert s == [s[0]] + s[1..];
      [s[0]] + rest
  }

  /** Python's `sorted` on a list of strings. */
  function SortStrings(s: seq<string>): (r: seq<string>)
    ensures StringsSorted(r)
    ensures multiset(r) == multiset(s)
  {
    if |s| == 0 then []
    else
      assert s == [s[0]] + s[1..];
      InsertString(s[0], SortStrings(s[1..]))
  }
}
