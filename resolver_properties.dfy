/** Properties of the resolver's specification: what validation keeps, how the cache lookup
    behaves, and that an answer written to the cache is what a repeated request is served. */
module ResolverProperties {
  import opened Common
  import opened DistanceMatrix
  import opened PostcodeResolver

  // ---------------------------------------------------------------------------
  // Validation

  /** Validating a concatenation validates each part in turn: input order is kept. */
  lemma {:induction false} ValidatedAppend(a: seq<string>, b: seq<string>, validate: string -> Option<string>)
    ensures Validated(a + b, validate) == Validated(a, validate) + Validated(b, validate)
  {
    if b == [] {
      assert a + b == a;
    } else {
      var n := |b| - 1;
      assert (a + b)[..|a + b| - 1] == a + b[..n];
      ValidatedAppend(a, b[..n], validate);
    }
  }

  /** A postcode is kept exactly when it is the accepted canonical form of some input. */
  lemma {:induction false} ValidatedMembers(raw: seq<string>, validate: string -> Option<string>, p: string)
    ensures p in Validated(raw, validate) <==>
      exists i :: 0 <= i < |raw| && Truthy(validate(raw[i])) && validate(raw[i]).value == p
  {
    if raw != [] {
      var n := |raw| - 1;
      ValidatedMembers(raw[..n], validate, p);
      if p in Validated(raw[..n], validate) {
        var i :| 0 <= i < n && Truthy(validate(raw[..n][i])) && validate(raw[..n][i]).value == p;
        assert raw[i] == raw[..n][i];
      }
      if exists i :: 0 <= i < |raw| && Truthy(validate(raw[i])) && validate(raw[i]).value == p {
        var i :| 0 <= i < |raw| && Truthy(validate(raw[i])) && validate(raw[i]).value == p;
        if i < n {
          assert raw[..n][i] == raw[i];
        }
      }
    }
  }

  /** Invalid entries are dropped, never added: the validated list is no longer than the input. */
  lemma {:induction false} ValidatedNoLonger(raw: seq<string>, validate: string -> Option<string>)
    ensures |Validated(raw, validate)| <= |raw|
  {
    if raw != [] {
      ValidatedNoLonger(raw[..|raw| - 1], validate);
    }
  }

  /** A single string is treated as the one-element list holding it. */
  lemma SingleInput(p: string, validate: string -> Option<string>)
    ensures Validated(AsList(Single(p)), validate) ==
      if Truthy(validate(p)) then [validate(p).value] else []
  {
    assert [p][..0] == [];
  }

  // ---------------------------------------------------------------------------
  // The cache lookup

  /** The lookup is not symmetric: a record stored for (a, b) is not found for (b, a). */
  lemma LookupIsOriented(a: string, b: string, distance: int, duration: int, created: int)
    requires a != b
    ensures GetCache([CacheRecord(a, b, distance, duration, created)], a, b).Some?
    ensures GetCache([CacheRecord(a, b, distance, duration, created)], b, a) == None
  {
    var table := [CacheRecord(a, b, distance, duration, created)];
    assert MatchesPair(table[0], a, b);
  }

  /** A record appended no earlier than every existing one is what the lookup for its pair returns. */
  lemma {:induction false} NewestRecordServed(table: seq<CacheRecord>, row: CacheRecord)
    requires forall k :: 0 <= k < |table| ==> table[k].created <= row.created
    ensures GetCache(table + [row], row.fromPostcode, row.toPostcode) == Some(row)
  {
    var extended := table + [row];
    assert extended[..|extended| - 1] == table;
    var older := GetCache(table, row.fromPostcode, row.toPostcode);
    if older.Some? {
      var k :| 0 <= k < |table| && table[k] == older.value;
    }
  }

  /** Of two records for the same pair, the lookup returns one created no earlier than the later one. */
  lemma RecencyWins(table: seq<CacheRecord>, i: nat, j: nat, fromPostcode: string, toPostcode: string)
    requires i < |table| && j < |table|
    requires table[i].fromPostcode == fromPostcode && table[i].toPostcode == toPostcode
    requires table[j].fromPostcode == fromPostcode && table[j].toPostcode == toPostcode
    requires table[i].created < table[j].created
    ensures GetCache(table, fromPostcode, toPostcode).Some?
    ensures GetCache(table, fromPostcode, toPostcode).value.created >= table[j].created
  {
    assert MatchesPair(table[j], fromPostcode, toPostcode);
  }

  // ---------------------------------------------------------------------------
  // Resolution

  /** After the provider's answer for lists starting with `f` and `t` has been written, a later
      single-pair request for (f, t) is a cache hit served that same Route. This holds for a
      multi-point request too, whose aggregate total is then served as the pair's distance. */
  lemma StoredAnswerIsServed(table: seq<CacheRecord>, fromArray: seq<string>, toArray: seq<string>, route: Route, now: int)
    requires |fromArray| > 0 && |toArray| > 0
    requires forall k :: 0 <= k < |table| ==> table[k].created <= now
    ensures var written := table + [CacheRecord(fromArray[0], toArray[0], route.totalDistanceMetres, route.totalTimeSeconds, now)];
      && CacheHit(true, written, [fromArray[0]], [toArray[0]])
      && CachedRoute(GetCache(written, fromArray[0], toArray[0]).value) == route
  {
    NewestRecordServed(table, CacheRecord(fromArray[0], toArray[0], route.totalDistanceMetres, route.totalTimeSeconds, now));
  }

  /** A fatal provider status is raised through the resolver with the provider's message,
      rather than turned into a `false` result. */
  lemma FatalStatusPropagates(apiKey: string, fromArray: seq<string>, toArray: seq<string>,
                              encode: map<string, string> -> string, send: string -> Option<Response>)
    requires var reply := send(RequestUrl("json", encode(Query(map[], toArray, fromArray)), apiKey));
      reply.Some? && IsFatal(reply.value.status)
    ensures var reply := send(RequestUrl("json", encode(Query(map[], toArray, fromArray)), apiKey));
      ProviderAnswer(apiKey, fromArray, toArray, encode, send) == Thrown(reply.value.errorMessage)
  {
  }
}
