/** The cache-first data loader (src/data/loader.py): bars come from the store when it covers
    the requested window, and from the provider otherwise. The provider's download is a
    function given to the loader; fetching it over the network is not modelled. */
module Loader {
  import opened Wrappers
  import opened Types
  import Providers
  import Storage

  /** Days of slack allowed at each end of the window for weekends and holidays. */
  const SlackDays: int := 7

  /** `_check_data_complete`: some row is dated no later than a week after the start and some
      row no earlier than a week before the end. */
  function CheckDataComplete(rows: seq<Bar>, start: Date, end: Date): (ok: bool)
    ensures |rows| == 0 ==> !ok
    ensures ok <==> (exists i :: 0 <= i < |rows| && rows[i].date <= start + SlackDays)
                    && (exists j :: 0 <= j < |rows| && rows[j].date >= end - SlackDays)
  {
    |rows| > 0 && FirstDate(rows) <= start + SlackDays && LastDate(rows) >= end - SlackDays
  }

  /** Rows that cover a window also cover every window inside it. */
  lemma CompleteForNarrowerWindow(rows: seq<Bar>, start: Date, end: Date, start': Date, end': Date)
    requires CheckDataComplete(rows, start, end)
    requires start <= start' && end' <= end
    ensures CheckDataComplete(rows, start', end')
  {
    var i :| 0 <= i < |rows| && rows[i].date <= start + SlackDays;
    var j :| 0 <= j < |rows| && rows[j].date >= end - SlackDays;
    assert rows[i].date <= start' + SlackDays && rows[j].date >= end' - SlackDays;
  }

  /** The store's answer to a cached load: the stored rows within the window, when the symbol
      is stored and those rows pass the completeness check. */
  function CacheHit(files: map<string, Storage.Frame>, symbol: string, start: Date, end: Date): (r: Option<Storage.Frame>)
    ensures r.Some? <==> Storage.FileKey(symbol) in files
                         && CheckDataComplete(Storage.FilterByDate(files[Storage.FileKey(symbol)].rows, Some(start), Some(end)), start, end)
    ensures r.Some? ==> r.value.columns == files[Storage.FileKey(symbol)].columns
                        && forall y :: y in r.value.rows <==>
                             y in files[Storage.FileKey(symbol)].rows && start <= y.date <= end
  {
    var key := Storage.FileKey(symbol);
    if key !in files then None
    else
      var frame := Storage.Frame(files[key].columns, Storage.FilterByDate(files[key].rows, Some(start), Some(end)));
      if CheckDataComplete(frame.rows, start, end) then Some(frame) else None
  }

  /** What `get_data_info` reports. */
  datatype DataInfo = DataInfo(symbol: string, startDate: Date, endDate: Date, totalBars: nat, fileExists: bool)

  class DataLoader {
    /** The provider's `get_daily_bars`: the bars of a symbol between two dates, or the
        exception the provider raises. */
    const fetch: (string, Date, Date) -> Result<Storage.Frame, Error>
    const storage: Storage.DataStorage

    /** A loader over a given provider and store. */
    constructor (fetch: (string, Date, Date) -> Result<Storage.Frame, Error>, storage: Storage.DataStorage)
      ensures this.fetch == fetch && this.storage == storage
    {
      this.fetch := fetch;
      this.storage := storage;
    }

    /** `load_daily_data`: the cached rows when caching is on and the store covers the window;
        otherwise the provider's rows, merged into the store when caching is on. */
    method LoadDailyData(symbol: string, start: Date, end: Date, useCache: bool) returns (r: Result<Storage.Frame, Error>)
      modifies storage
      ensures Providers.NormalizeSymbol(symbol).Err? ==>
                r == Err(Providers.NormalizeSymbol(symbol).error) && storage.files == old(storage.files)
      ensures Providers.NormalizeSymbol(symbol).Ok? ==>
                var n := Providers.NormalizeSymbol(symbol).value;
                var hit := if useCache then CacheHit(old(storage.files), n, start, end) else None;
                && (hit.Some? ==> r == Ok(hit.value) && storage.files == old(storage.files))
                && (hit.None? && fetch(n, start, end).Err? ==>
                      r == Err(fetch(n, start, end).error) && storage.files == old(storage.files))
                && (hit.None? && fetch(n, start, end).Ok? && !useCache ==>
                      r == fetch(n, start, end) && storage.files == old(storage.files))
                && (hit.None? && fetch(n, start, end).Ok? && useCache ==>
                      var u := Storage.Updated(old(storage.files), n, fetch(n, start, end).value);
                      && (u.Ok? ==> r == fetch(n, start, end) && storage.files == u.value)
                      && (u.Err? ==> r == Err(u.error) && storage.files == old(storage.files)))
      ensures old(storage.Valid()) ==> storage.Valid()
    {
      var normalized := Providers.NormalizeSymbol(symbol);
      if normalized.Err? {
        return Err(normalized.error);
      }
      var n := normalized.value;
      if useCache && storage.HasDailyData(n) {
        var cached := storage.LoadDailyData(n, Some(start), Some(end)).value;
        if CheckDataComplete(cached.rows, start, end) {
          return Ok(cached);
        }
      }
      var fetched := fetch(n, start, end);
      if fetched.Err? {
        return Err(fetched.error);
      }
      if useCache {
        var e := storage.UpdateDailyData(n, fetched.value);
        if e.Some? {
          return Err(e.value);
        }
      }
      return fetched;
    }

    /** `download_data`: the provider's rows saved over whatever the store held. */
    method DownloadData(symbol: string, start: Date, end: Date) returns (e: Option<Error>)
      modifies storage
      ensures Providers.NormalizeSymbol(symbol).Err? ==>
                e == Some(Providers.NormalizeSymbol(symbol).error) && storage.files == old(storage.files)
      ensures Providers.NormalizeSymbol(symbol).Ok? ==>
                var n := Providers.NormalizeSymbol(symbol).value;
                && (fetch(n, start, end).Err? ==> e == Some(fetch(n, start, end).error) && storage.files == old(storage.files))
                && (fetch(n, start, end).Ok? ==>
                      var s := Storage.Saved(old(storage.files), n, fetch(n, start, end).value);
                      && (s.Ok? ==> e.None? && storage.files == s.value)
                      && (s.Err? ==> e == Some(s.error) && storage.files == old(storage.files)))
      ensures old(storage.Valid()) ==> storage.Valid()
    {
      var normalized := Providers.NormalizeSymbol(symbol);
      if normalized.Err? {
        return Some(normalized.error);
      }
      var n := normalized.value;
      var fetched := fetch(n, start, end);
      if fetched.Err? {
        return Some(fetched.error);
      }
      e := storage.SaveDailyData(n, fetched.value);
    }

    /** `update_data`: the last `days` days up to `today` fetched and merged into the store.
        The clock is the `today` parameter. */
    method UpdateData(symbol: string, days: int, today: Date) returns (e: Option<Error>)
      modifies storage
      ensures Providers.NormalizeSymbol(symbol).Err? ==>
                e == Some(Providers.NormalizeSymbol(symbol).error) && storage.files == old(storage.files)
      ensures Providers.NormalizeSymbol(symbol).Ok? ==>
                var n := Providers.NormalizeSymbol(symbol).value;
                && (fetch(n, today - days, today).Err? ==>
                      e == Some(fetch(n, today - days, today).error) && storage.files == old(storage.files))
                && (fetch(n, today - days, today).Ok? ==>
                      var u := Storage.Updated(old(storage.files), n, fetch(n, today - days, today).value);
                      && (u.Ok? ==> e.None? && storage.files == u.value)
                      && (u.Err? ==> e == Some(u.error) && storage.files == old(storage.files)))
      ensures old(storage.Valid()) ==> storage.Valid()
    {
      var normalized := Providers.NormalizeSymbol(symbol);
      if normalized.Err? {
        return Some(normalized.error);
      }
      var n := normalized.value;
      var fetched := fetch(n, today - days, today);
      if fetched.Err? {
        return Some(fetched.error);
      }
      e := storage.UpdateDailyData(n, fetched.value);
    }

    /** `get_data_info`: None when the symbol is not stored or has no rows; otherwise its
        normalised code, first and last dates and number of bars. */
    function GetDataInfo(symbol: string): (r: Result<Option<DataInfo>, Error>)
      reads storage
      ensures Providers.NormalizeSymbol(symbol).Err? ==> r == Err(Providers.NormalizeSymbol(symbol).error)
      ensures Providers.NormalizeSymbol(symbol).Ok? ==>
                var n := Providers.NormalizeSymbol(symbol).value;
                var key := Storage.FileKey(n);
                && r.Ok?
                && (r.value.None? <==> key !in storage.files || |storage.files[key].rows| == 0)
                && (r.value.Some? ==>
                      var rows := storage.files[key].rows;
                      && r.value.value.symbol == n
                      && r.value.value.totalBars == |rows|
                      && r.value.value.fileExists
                      && (forall i :: 0 <= i < |rows| ==> r.value.value.startDate <= rows[i].date <= r.value.value.endDate)
                      && (exists i :: 0 <= i < |rows| && rows[i].date == r.value.value.startDate)
                      && (exists i :: 0 <= i < |rows| && rows[i].date == r.value.value.endDate))
    {
      match Providers.NormalizeSymbol(symbol)
      case Err(e) => Err(e)
      case Ok(n) =>
        if !storage.HasDailyData(n) then Ok(None)
        else
          match storage.GetDataDateRange(n)
          case None => Ok(None)
          case Some(range) =>
            var frame := storage.LoadDailyData(n, None, None).value;
            Ok(Some(DataInfo(n, range.0, range.1, |frame.rows|, true)))
    }

    /** `clear_cache`: the symbol's file removed from the store. */
    method ClearCache(symbol: string) returns (e: Option<Error>)
      modifies storage
      ensures Providers.NormalizeSymbol(symbol).Err? ==>
                e == Some(Providers.NormalizeSymbol(symbol).error) && storage.files == old(storage.files)
      ensures Providers.NormalizeSymbol(symbol).Ok? ==>
                e.None? && storage.files == old(storage.files) - {Storage.FileKey(Providers.NormalizeSymbol(symbol).value)}
      ensures old(storage.Valid()) ==> storage.Valid()
    {
      var normalized := Providers.NormalizeSymbol(symbol);
      if normalized.Err? {
        return Some(normalized.error);
      }
      storage.DeleteSymbolData(normalized.value);
      return None;
    }
  }
}
