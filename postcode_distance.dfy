/** The cache-first resolver: validate both postcode lists, answer a single pair from the
    newest matching cache record, otherwise ask the distance client and append its answer
    to the cache table. The table is an append-only sequence of records. */
module PostcodeResolver {
  import opened Common
  import opened DistanceMatrix

  const CacheSource := "cache"
  const ApiSource := "api"

  /** A row of the `postcodeDistance` table; `created` is stamped by the store. */
  datatype CacheRecord = CacheRecord(
    fromPostcode: string,
    toPostcode: string,
    distanceRoad: int,
    durationSeconds: int,
    created: int)

  /** `getDistance` accepts a single string or a list of strings for each side. */
  datatype PostcodeInput = Single(postcode: string) | Many(postcodes: seq<string>)

  function AsList(input: PostcodeInput): seq<string> {
    match input
    case Single(p) => [p]
    case Many(ps) => ps
  }

  /** The `WHERE` clause of `getCache`. Its two disjuncts test the same orientation. */
  predicate MatchesPair(row: CacheRecord, fromPostcode: string, toPostcode: string) {
    (row.fromPostcode == fromPostcode && row.toPostcode == toPostcode)
    || (row.toPostcode == toPostcode && row.fromPostcode == fromPostcode)
  }

  /** `getCache`: the matching record with the greatest `created`, or nothing.
      Among records created at the same time the one inserted last is returned. */
  function GetCache(table: seq<CacheRecord>, fromPostcode: string, toPostcode: string): (row: Option<CacheRecord>)
    ensures row.Some? ==> row.value in table
    ensures row.Some? ==> row.value.fromPostcode == fromPostcode && row.value.toPostcode == toPostcode
    ensures row.Some? ==> forall k :: 0 <= k < |table| && MatchesPair(table[k], fromPostcode, toPostcode) ==>
      table[k].created <= row.value.created
    ensures row.None? <==> forall k :: 0 <= k < |table| ==> !MatchesPair(table[k], fromPostcode, toPostcode)
    decreases |table|
  {
    if table == [] then None
    else
      var n := |table| - 1;
      var older := GetCache(table[..n], fromPostcode, toPostcode);
      if MatchesPair(table[n], fromPostcode, toPostcode) && (older.None? || older.value.created <= table[n].created)
      then Some(table[n])
      else older
  }

  /** The canonical forms of the raw postcodes the validator accepts, in input order;
      a canonical form is kept only when it is truthy. */
  function Validated(raw: seq<string>, validate: string -> Option<string>): seq<string>
  {
    if raw == [] then []
    else
      var n := |raw| - 1;
      Validated(raw[..n], validate)
      + (if Truthy(validate(raw[n])) then [validate(raw[n]).value] else [])
  }

  /** One validation loop of `getDistance`. */
  method CanonicalPostcodes(raw: seq<string>, validate: string -> Option<string>) returns (kept: seq<string>)
    ensures kept == Validated(raw, validate)
  {
    kept := [];
    var i := 0;
    while i < |raw|
      invariant 0 <= i <= |raw|
      invariant kept == Validated(raw[..i], validate)
    {
      assert raw[..i + 1][..i] == raw[..i];
      var validated := validate(raw[i]);
      if Truthy(validated) {
        kept := kept + [validated.value];
      }
      i := i + 1;
    }
    assert raw[..i] == raw;
  }

  /** The single pair is answered from the cache. */
  predicate CacheHit(hasDatabase: bool, table: seq<CacheRecord>, fromArray: seq<string>, toArray: seq<string>) {
    hasDatabase && |fromArray| == 1 && |toArray| == 1 && GetCache(table, fromArray[0], toArray[0]).Some?
  }

  /** The Route a cache record stands for. */
  function CachedRoute(row: CacheRecord): Route {
    Route(row.distanceRoad, row.durationSeconds)
  }

  /** What a freshly constructed client answers for these lists: the query carries only the
      two joined lists, and the URL is built for the `json` return type. */
  function ProviderAnswer(apiKey: string, fromArray: seq<string>, toArray: seq<string>,
                          encode: map<string, string> -> string, send: string -> Option<Response>): Outcome
  {
    Answer(send(RequestUrl("json", encode(Query(map[], toArray, fromArray)), apiKey)))
  }

  /** The resolver. `database` is optional; without it the cache is never read or written. */
  class PostcodeDistance {
    const apiKey: Option<string>
    const hasDatabase: bool
    var table: seq<CacheRecord>
    var source: string
    /** The (origins, destinations) lists handed to the distance client, oldest first. */
    ghost var providerRequests: seq<(seq<string>, seq<string>)>
    /** The (from, to) pairs looked up in the cache table, oldest first. */
    ghost var cacheLookups: seq<(string, string)>

    constructor (apiKey: Option<string>, database: Option<seq<CacheRecord>>)
      ensures this.apiKey == apiKey
      ensures hasDatabase == database.Some?
      ensures table == (if database.Some? then database.value else [])
      ensures source == CacheSource && providerRequests == [] && cacheLookups == []
    {
      this.apiKey := apiKey;
      hasDatabase := database.Some?;
      table := if database.Some? then database.value else [];
      source := CacheSource;
      providerRequests := [];
      cacheLookups := [];
    }

    /** `getDistance(to, from)`. `validate` is the postcode validator, `encode` and `send` are
        handed to the distance client, `now` is the store's clock for `created`. */
    method GetDistance(to: PostcodeInput, from: PostcodeInput, validate: string -> Option<string>,
                       encode: map<string, string> -> string, send: string -> Option<Response>, now: int)
      returns (outcome: Outcome)
      modifies this`table, this`source, this`providerRequests, this`cacheLookups
      ensures var toArray := Validated(AsList(to), validate);
              var fromArray := Validated(AsList(from), validate);
              (|toArray| == 0 || |fromArray| == 0) ==>
                && outcome == NoResult && source == CacheSource
                && table == old(table) && providerRequests == old(providerRequests)
                && cacheLookups == old(cacheLookups)
      ensures var toArray := Validated(AsList(to), validate);
              var fromArray := Validated(AsList(from), validate);
              (|toArray| > 0 && |fromArray| > 0) ==>
                cacheLookups == old(cacheLookups) +
                  if hasDatabase && |fromArray| == 1 && |toArray| == 1 then [(fromArray[0], toArray[0])] else []
      ensures var toArray := Validated(AsList(to), validate);
              var fromArray := Validated(AsList(from), validate);
              CacheHit(hasDatabase, old(table), fromArray, toArray) ==>
                && outcome == Found(CachedRoute(GetCache(old(table), fromArray[0], toArray[0]).value))
                && source == CacheSource
                && table == old(table) && providerRequests == old(providerRequests)
      ensures var toArray := Validated(AsList(to), validate);
              var fromArray := Validated(AsList(from), validate);
              (|toArray| > 0 && |fromArray| > 0 && !CacheHit(hasDatabase, old(table), fromArray, toArray)) ==>
                if !Truthy(apiKey) then
                  && outcome == Thrown(MissingKeyMessage) && source == CacheSource
                  && table == old(table) && providerRequests == old(providerRequests)
                else
                  && source == ApiSource
                  && providerRequests == old(providerRequests) + [(fromArray, toArray)]
                  && outcome == ProviderAnswer(apiKey.value, fromArray, toArray, encode, send)
                  && table == old(table) +
                       if hasDatabase && outcome.Found? then
                         [CacheRecord(fromArray[0], toArray[0], outcome.route.totalDistanceMetres,
                                      outcome.route.totalTimeSeconds, now)]
                       else []
    {
      source := CacheSource;

      var toArray := CanonicalPostcodes(AsList(to), validate);
      var fromArray := CanonicalPostcodes(AsList(from), validate);

      if |toArray| == 0 || |fromArray| == 0 {
        return NoResult;
      }

      if hasDatabase && |fromArray| == 1 && |toArray| == 1 {
        cacheLookups := cacheLookups + [(fromArray[0], toArray[0])];
        var row := GetCache(table, fromArray[0], toArray[0]);
        if row.Some? {
          return Found(CachedRoute(row.value));
        }
      }

      var made := Distance.Construct(apiKey, "json");
      if made.Failure? {
        return Thrown(made.error);
      }
      var client := made.value;

      source := ApiSource;

      providerRequests := providerRequests + [(fromArray, toArray)];
      outcome := client.GetResponse(fromArray, toArray, encode, send);
      if !outcome.Found? {
        return outcome;
      }

      if hasDatabase {
        table := table + [CacheRecord(fromArray[0], toArray[0], outcome.route.totalDistanceMetres,
                                      outcome.route.totalTimeSeconds, now)];
      }
    }
  }
}
