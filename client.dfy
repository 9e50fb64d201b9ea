/** The client `Prometheus` (scaleops/promqlpandas.py:36-165): instant and
    range queries, and the cache of range query results, one file per query
    text in the cache directory.

    The server is not part of the model: each query method is given the
    response the server sends (the decoded body's `data`, or the error that
    `_do_query` raises), and `sent` records the requests the client makes.
    The cache directory is the pair `dirExists`/`files`, the files keyed by
    the SHA-256 hex digest of the query text; a stored table is read back as
    it was written. */
module Client {
  import opened Common
  import opened Durations
  import opened Labels
  import opened Convert

  /** The parameters of a request to `api/v1/query` or `api/v1/query_range`,
      times and durations in milliseconds. */
  datatype Request =
    | InstantRequest(query: string, time: Option<int>, timeout: Option<int>)
    | RangeRequest(query: string, start: int, end: int, step: int, timeout: Option<int>)

  /** The `timeout` parameter: absent, or `duration_to_s(timeout)`. */
  function TimeoutSpec(timeout: Option<DurationInput>): Result<Option<int>, Error>
  {
    match timeout
    case None => Ok(None)
    case Some(d) =>
      match DurationSpec(d)
      case Err(e) => Err(e)
      case Ok(ms) => Ok(Some(ms))
  }

  /** The `step` and `timeout` of a range query, parsed in that order. */
  function RangeParams(step: DurationInput, timeout: Option<DurationInput>): Result<(int, Option<int>), Error>
  {
    match DurationSpec(step)
    case Err(e) => Err(e)
    case Ok(ms) =>
      match TimeoutSpec(timeout)
      case Err(e) => Err(e)
      case Ok(t) => Ok((ms, t))
  }

  /** The table a response converts to, or the error the response carries. */
  ghost function Converted<V>(response: Result<QueryData<LabelMap>, Error>, window: Option<Window>,
                              sort: Option<LabelMap -> int>, labels: LabelMap, parse: string -> V)
    : Result<Table<V>, Error>
  {
    match response
    case Err(e) => Err(e)
    case Ok(data) => ToPandasSpec(data, window, sort, labels, parse)
  }

  /** What the cache makes of a range query: a forced flush of a missing
      file fails, a stored file is returned, and anything else is fetched. */
  datatype Lookup = FlushMissing | Hit | Miss

  /** `if timeout is not None: params['timeout'] = duration_to_s(timeout)`. */
  method TimeoutMs(timeout: Option<DurationInput>) returns (r: Result<Option<int>, Error>)
    ensures r == TimeoutSpec(timeout)
  {
    if timeout.None? {
      return Ok(None);
    }
    var d := DurationToMs(timeout.value);
    if d.Err? {
      return Err(d.error);
    }
    r := Ok(Some(d.value));
  }

  /** `resp.json()['data']` handed to `_to_pandas`, or the error
      `_do_query` raised. */
  method ConvertResponse<V>(response: Result<QueryData<LabelMap>, Error>, window: Option<Window>,
                            sort: Option<LabelMap -> int>, labels: LabelMap, parse: string -> V)
    returns (r: Result<Table<V>, Error>)
    ensures r == Converted(response, window, sort, labels, parse)
  {
    if response.Err? {
      return Err(response.error);
    }
    var raw := Decode(response.value);
    r := ToPandas(raw, window, sort, labels, parse);
  }

  class Prometheus<V> {
    /** Whether a cache path was given (`if self._cache_path:`). */
    const cacheConfigured: bool
    /** `hashlib.sha256(query.encode('utf-8')).hexdigest()`. */
    const hash: string -> string
    /** `np.float64` of a sample value. */
    const parse: string -> V
    /** Whether the cache directory exists. */
    var dirExists: bool
    /** The cache files: `<digest>.parquet` by digest, with the table it holds. */
    var files: map<string, Table<V>>
    /** The requests sent to the server, oldest first. */
    ghost var sent: seq<Request>

    /** A file lives in the directory, and without a cache path there is no
        directory to speak of. */
    ghost predicate Valid()
      reads this
    {
      (!dirExists ==> files == map[]) && (!cacheConfigured ==> !dirExists)
    }

    ghost function LookupOf(query: string, flush: bool): Lookup
      reads this
    {
      if !cacheConfigured then Miss
      else if flush && hash(query) !in files then FlushMissing
      else if !flush && dirExists && hash(query) in files then Hit
      else Miss
    }

    /** A client over the cache directory as it is found on disk. */
    constructor(cacheConfigured: bool, dirExists: bool, files: map<string, Table<V>>,
                hash: string -> string, parse: string -> V)
      requires !dirExists ==> files == map[]
      requires !cacheConfigured ==> !dirExists
      ensures this.cacheConfigured == cacheConfigured && this.hash == hash && this.parse == parse
      ensures this.dirExists == dirExists && this.files == files && sent == []
      ensures Valid()
    {
      this.cacheConfigured := cacheConfigured;
      this.hash := hash;
      this.parse := parse;
      this.dirExists := dirExists;
      this.files := files;
      sent := [];
    }

    /** `flush_cache` (lines 57-58): the directory and every file are gone;
        `rmtree` ignores a missing directory and a missing path. */
    method FlushCache()
      requires Valid()
      modifies this
      ensures Valid()
      ensures !dirExists && files == map[] && sent == old(sent)
    {
      if cacheConfigured {
        dirExists := false;
        files := map[];
      }
    }

    /** `flush_query_cache` (lines 60-64): the query's file is removed; with
        no cache path `None / name` raises TypeError, and a missing file
        raises FileNotFoundError. */
    method FlushQueryCache(query: string) returns (r: Result<(), Error>)
      requires Valid()
      modifies this
      ensures Valid()
      ensures dirExists == old(dirExists) && sent == old(sent)
      ensures !cacheConfigured ==> r == Err(TypeError)
      ensures cacheConfigured ==> (r.Ok? <==> hash(query) in old(files))
      ensures cacheConfigured && r.Err? ==> r.error == FileNotFound
      ensures r.Ok? ==> files == old(files) - {hash(query)}
      ensures r.Err? ==> unchanged(this)
    {
      if !cacheConfigured {
        return Err(TypeError);
      }
      var key := hash(query);
      if key !in files {
        return Err(FileNotFound);
      }
      files := files - {key};
      r := Ok(());
    }

    /** `query` (lines 66-99): an instant query. The cache is not involved;
        a sort key sorts the keys of the data dict, whose items are strings,
        and raises TypeError; and `_to_pandas` is called without `labels` or
        `sort`, so the labels given are not used. */
    method Query(query: string, time: Option<int>, timeout: Option<DurationInput>, sort: Option<LabelMap -> int>,
                 labels: LabelMap, response: Result<QueryData<LabelMap>, Error>)
      returns (r: Result<Table<V>, Error>)
      requires Valid()
      modifies this
      ensures Valid()
      ensures dirExists == old(dirExists) && files == old(files)
      ensures TimeoutSpec(timeout).Err? ==> r == Err(TimeoutSpec(timeout).error) && sent == old(sent)
      ensures TimeoutSpec(timeout).Ok? ==>
                sent == old(sent) + [InstantRequest(query, time, TimeoutSpec(timeout).value)]
      ensures TimeoutSpec(timeout).Ok? && response.Ok? && sort.Some? ==> r == Err(TypeError)
      ensures TimeoutSpec(timeout).Ok? && (response.Err? || sort.None?) ==>
                r == Converted(response, None, None, map[], parse)
    {
      var t := TimeoutMs(timeout);
      if t.Err? {
        return Err(t.error);
      }
      sent := sent + [InstantRequest(query, time, t.value)];
      if response.Ok? && sort.Some? {
        return Err(TypeError);
      }
      r := ConvertResponse(response, None, None, map[], parse);
    }

    /** `query_range` (lines 101-165). After the step and the timeout are
        parsed, a configured cache is consulted: a forced flush removes the
        query's file first (and fails when there is none), a stored file is
        returned without a request, and a missing directory is created before
        the request is sent. A fetched table is stored under the query's
        digest, whatever the window, labels or sort; `to_parquet` exists only
        on a DataFrame. */
    method QueryRange(query: string, start: int, end: int, step: DurationInput, labels: LabelMap,
                      timeout: Option<DurationInput>, sort: Option<LabelMap -> int>, flush: bool,
                      response: Result<QueryData<LabelMap>, Error>)
      returns (r: Result<Table<V>, Error>)
      requires Valid()
      modifies this
      ensures Valid()
      ensures RangeParams(step, timeout).Err? ==> r == Err(RangeParams(step, timeout).error) && unchanged(this)
      ensures RangeParams(step, timeout).Ok? && old(LookupOf(query, flush)) == FlushMissing ==>
                r == Err(FileNotFound) && unchanged(this)
      ensures RangeParams(step, timeout).Ok? && old(LookupOf(query, flush)) == Hit ==>
                r == Ok(old(files)[hash(query)]) && unchanged(this)
      ensures RangeParams(step, timeout).Ok? && old(LookupOf(query, flush)) == Miss ==>
                var ps := RangeParams(step, timeout).value;
                var t := Converted(response, Some(Window(start, end, ps.0)), sort, labels, parse);
                var kept := if cacheConfigured && flush then old(files) - {hash(query)} else old(files);
                && sent == old(sent) + [RangeRequest(query, start, end, ps.0, ps.1)]
                && dirExists == (old(dirExists) || cacheConfigured)
                && r == (if cacheConfigured && t.Ok? && !t.value.Frame? then Err(MissingAttribute) else t)
                && files == (if cacheConfigured && t.Ok? && t.value.Frame? then kept[hash(query) := t.value] else kept)
    {
      var s := DurationToMs(step);
      if s.Err? {
        return Err(s.error);
      }
      var t := TimeoutMs(timeout);
      if t.Err? {
        return Err(t.error);
      }
      var key := hash(query);
      if cacheConfigured {
        if flush {
          var f := FlushQueryCache(query);
          if f.Err? {
            return Err(f.error);
          }
        }
        if dirExists {
          if key in files {
            return Ok(files[key]);
          }
        } else {
          dirExists := true;
        }
      }
      r := Fetch(query, start, end, s.value, t.value, sort, labels, response);
    }

    /** The request of `query_range` and what follows it: the response is
        converted and, with a cache, a DataFrame is stored under the query's
        digest (lines 149-165). */
    method Fetch(query: string, start: int, end: int, step: int, timeout: Option<int>,
                 sort: Option<LabelMap -> int>, labels: LabelMap,
                 response: Result<QueryData<LabelMap>, Error>)
      returns (r: Result<Table<V>, Error>)
      requires Valid() && (cacheConfigured ==> dirExists)
      modifies this
      ensures Valid()
      ensures var t := Converted(response, Some(Window(start, end, step)), sort, labels, parse);
              && sent == old(sent) + [RangeRequest(query, start, end, step, timeout)]
              && dirExists == old(dirExists)
              && r == (if cacheConfigured && t.Ok? && !t.value.Frame? then Err(MissingAttribute) else t)
              && files == (if cacheConfigured && t.Ok? && t.value.Frame? then old(files)[hash(query) := t.value] else old(files))
    {
      sent := sent + [RangeRequest(query, start, end, step, timeout)];
      r := ConvertResponse(response, Some(Window(start, end, step)), sort, labels, parse);
      if r.Ok? && cacheConfigured {
        if !r.value.Frame? {
          return Err(MissingAttribute);
        }
        files := files[hash(query) := r.value];
      }
    }
  }

  /** A range query that succeeds with a cache configured leaves its table
      in the cache: asked again with the same text and no flush, the client
      returns that table without another request, whatever the window,
      labels, sort or server response of the second call. */
  method RepeatHits<V>(p: Prometheus<V>, query: string, start: int, end: int, step: DurationInput,
                       labels: LabelMap, sort: Option<LabelMap -> int>, flush: bool,
                       response: Result<QueryData<LabelMap>, Error>,
                       start2: int, end2: int, step2: DurationInput, labels2: LabelMap,
                       sort2: Option<LabelMap -> int>, response2: Result<QueryData<LabelMap>, Error>)
    returns (r: Result<Table<V>, Error>, r2: Result<Table<V>, Error>, ghost mid: seq<Request>)
    requires p.Valid() && p.cacheConfigured
    requires RangeParams(step2, None).Ok?
    modifies p
    ensures p.Valid()
    ensures r.Ok? ==> r2 == r && |p.sent| <= |old(p.sent)| + 1
    ensures r.Ok? ==> p.sent == mid
  {
    r := p.QueryRange(query, start, end, step, labels, None, sort, flush, response);
    mid := p.sent;
    r2 := p.QueryRange(query, start2, end2, step2, labels2, None, sort2, false, response2);
  }
}
