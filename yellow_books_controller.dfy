/** The NestJS controller behind `POST /ai/yellow-books/search`: validate the query, answer from
    the Redis cache when it can, otherwise embed the query, score every record that has an
    embedding, keep the five most similar, have the chat model write an answer about them, and
    cache the response for an hour. The embedding and chat services, JSON, the database and
    Redis failures are parameters. */
module YellowBooksController {
  import opened Wrappers
  import opened Text
  import opened KeyValue
  import opened VectorMath
  import opened Ranking
  import opened Directory

  /** One record in a response: the record's columns without its embedding, and its score. */
  datatype Listing = Listing(
    id: string, businessName: string, category: string, phoneNumber: string,
    address: string, city: string, state: string, zipCode: string,
    description: Option<string>, website: Option<string>, email: Option<string>,
    similarity: Num)

  /** `SearchResponse`. */
  datatype SearchResponse = SearchResponse(answer: string, businesses: seq<Listing>, cached: bool)

  /** What the endpoint returns: a response, or an `HttpException` with its status and message. */
  datatype Reply = Answered(response: SearchResponse) | HttpError(status: nat, message: string)

  /** A reply and the cache afterwards (`None` when no Redis URL is configured). */
  datatype Outcome = Outcome(reply: Reply, cache: Option<map<string, Entry<string>>>)

  /** The services the controller calls. `embed` is the embeddings endpoint, `parseVector` is
      `JSON.parse` of an embedding column, `complete` the chat completion of the user message
      (its content may be null), `encode`/`decode` are `JSON.stringify`/`JSON.parse` of a
      response; failures carry the thrown error's message. */
  datatype Providers = Providers(
    embed: string -> Result<seq<real>, string>,
    parseVector: string -> Result<seq<real>, string>,
    complete: string -> Result<Option<string>, string>,
    fp: Float,
    encode: SearchResponse -> string,
    decode: string -> Result<SearchResponse, string>)
  {
    function Embed(text: string): Result<seq<real>, string> { embed(text) }
    function ParseVector(text: string): Result<seq<real>, string> { parseVector(text) }
    function Complete(message: string): Result<Option<string>, string> { complete(message) }
    function Encode(response: SearchResponse): string { encode(response) }
    function Decode(text: string): Result<SearchResponse, string> { decode(text) }
  }

  /** Failures of the Redis GET, the Redis SETEX and the database query, with their messages. */
  datatype Faults = Faults(read: Option<string>, write: Option<string>, fetch: Option<string>)

  const KeyPrefix: string := "ai:search:"
  const TopCount: nat := 5
  const AnswerTtl: nat := 3600
  const NoAnswer: string := "No answer available"
  const QueryRequired: string := "Query is required"
  const KeyMissing: string := "OpenAI API key not configured"
  const FailurePrefix: string := "AI search failed: "

  /** The cache key: the prefix and the lower-cased, trimmed query. */
  function CacheKey(query: string): string {
    KeyPrefix + Normalize(query)
  }

  /** Two queries share a cache entry exactly when their normal forms agree. The middleware's
      `AiSearchMiddleware.CacheKeyShared` is the same statement under its own prefix. */
  lemma CacheKeyShared(q1: string, q2: string)
    ensures CacheKey(q1) == CacheKey(q2) <==> Normalize(q1) == Normalize(q2)
  {
    PrefixCancels(KeyPrefix, Normalize(q1), Normalize(q2));
  }

  /** The columns a response shows for a record. */
  function ListingOf(b: Business, similarity: Num): Listing {
    Listing(b.id, b.businessName, b.category, b.phoneNumber, b.address, b.city, b.state, b.zipCode,
            b.description, b.website, b.email, similarity)
  }

  /** The `map` callback scores a record only when its embedding is truthy. */
  predicate HasEmbedding(b: Business) {
    Truthy(b.embedding)
  }

  /** The `map` callback on one record: parse its embedding and score it against the query. */
  function Scoring(queryVector: seq<real>, b: Business, p: Providers): (r: Result<Scored<Listing>, string>)
    ensures r.Success? ==> r.value.item == ListingOf(b, r.value.similarity)
    ensures r.Success? ==>
      && p.ParseVector(OrEmpty(b.embedding)).Success?
      && Cosine(queryVector, p.ParseVector(OrEmpty(b.embedding)).value, p.fp) == Success(r.value.similarity)
  {
    var vector :- p.ParseVector(OrEmpty(b.embedding));
    var similarity :- Cosine(queryVector, vector, p.fp);
    Success(Scored(ListingOf(b, similarity), similarity))
  }

  /** `map(...).filter(...)`: every record with an embedding, in order, with its score; the first
      record whose embedding does not parse or has the wrong length makes the whole search fail. */
  function ScoreAll(queryVector: seq<real>, rows: seq<Business>, p: Providers): Result<seq<Scored<Listing>>, string> {
    if rows == [] then Success([])
    else
      var rest := ScoreAll(queryVector, rows[1..], p);
      if !HasEmbedding(rows[0]) then rest
      else
        match Scoring(queryVector, rows[0], p)
        case Failure(e) => Failure(e)
        case Success(x) => if rest.Failure? then Failure(rest.error) else Success([x] + rest.value)
  }

  /** Scoring succeeds exactly when every record with an embedding scores. */
  lemma {:induction false} ScoreAllSucceeds(queryVector: seq<real>, rows: seq<Business>, p: Providers)
    ensures ScoreAll(queryVector, rows, p).Success? <==>
      forall b :: b in rows && HasEmbedding(b) ==> Scoring(queryVector, b, p).Success?
  {
    if rows != [] {
      ScoreAllSucceeds(queryVector, rows[1..], p);
      assert forall b :: b in rows <==> b == rows[0] || b in rows[1..];
    }
  }

  /** On success the scores are those of the records with an embedding, one for one and in
      order. */
  lemma {:induction false} ScoreAllValues(queryVector: seq<real>, rows: seq<Business>, p: Providers)
    requires ScoreAll(queryVector, rows, p).Success?
    ensures var kept := Select(rows, HasEmbedding);
      var r := ScoreAll(queryVector, rows, p).value;
      |r| == |kept| && forall i :: 0 <= i < |kept| ==> Scoring(queryVector, kept[i], p) == Success(r[i])
  {
    if rows != [] {
      var rest := ScoreAll(queryVector, rows[1..], p);
      assert rest.Success?;
      ScoreAllValues(queryVector, rows[1..], p);
      var kept := Select(rows, HasEmbedding);
      var keptRest := Select(rows[1..], HasEmbedding);
      if HasEmbedding(rows[0]) {
        assert kept == [rows[0]] + keptRest;
        var x := Scoring(queryVector, rows[0], p).value;
        assert ScoreAll(queryVector, rows, p).value == [x] + rest.value;
      } else {
        assert kept == keptRest;
      }
    }
  }

  /** A stored vector whose length differs from the query's (one written by a different
      embedding model, say) makes the whole scoring fail. */
  lemma MismatchedVectorFails(queryVector: seq<real>, rows: seq<Business>, p: Providers, b: Business)
    requires b in rows && HasEmbedding(b)
    requires p.ParseVector(OrEmpty(b.embedding)).Success?
    requires |p.ParseVector(OrEmpty(b.embedding)).value| != |queryVector|
    ensures ScoreAll(queryVector, rows, p).Failure?
  {
    CosineGuards(queryVector, p.ParseVector(OrEmpty(b.embedding)).value, p.fp);
    ScoreAllSucceeds(queryVector, rows, p);
  }

  /** With no record having an embedding, nothing is scored and nothing can fail. */
  lemma {:induction false} ScoreAllNone(queryVector: seq<real>, rows: seq<Business>, p: Providers)
    requires forall b :: b in rows ==> !HasEmbedding(b)
    ensures ScoreAll(queryVector, rows, p) == Success([])
  {
    if rows != [] {
      assert rows[0] in rows;
      assert forall b :: b in rows[1..] ==> b in rows;
      ScoreAllNone(queryVector, rows[1..], p);
    }
  }

  /** A failure is the error of some record with an embedding. */
  lemma {:induction false} ScoreAllFails(queryVector: seq<real>, rows: seq<Business>, p: Providers)
    requires ScoreAll(queryVector, rows, p).Failure?
    ensures exists b :: b in rows && HasEmbedding(b) && Scoring(queryVector, b, p) == Failure(ScoreAll(queryVector, rows, p).error)
  {
    var rest := ScoreAll(queryVector, rows[1..], p);
    if HasEmbedding(rows[0]) && Scoring(queryVector, rows[0], p).Failure? {
      assert rows[0] in rows;
    } else {
      ScoreAllFails(queryVector, rows[1..], p);
      var b :| b in rows[1..] && HasEmbedding(b) && Scoring(queryVector, b, p) == Failure(rest.error);
      assert b in rows;
    }
  }

  /** Every score ScoreAll produces is the one its listing carries, and it is a number whenever no
      division yields NaN. */
  lemma ScoresCarried(queryVector: seq<real>, rows: seq<Business>, p: Providers)
    requires ScoreAll(queryVector, rows, p).Success?
    ensures forall x :: x in ScoreAll(queryVector, rows, p).value ==> x.item.similarity == x.similarity
    ensures DivisionDefined(p.fp) ==> AllNumbers(ScoreAll(queryVector, rows, p).value)
  {
    ScoreAllValues(queryVector, rows, p);
    var r := ScoreAll(queryVector, rows, p).value;
    var kept := Select(rows, HasEmbedding);
    forall i | 0 <= i < |r|
      ensures r[i].item.similarity == r[i].similarity
      ensures DivisionDefined(p.fp) ==> r[i].similarity.Num?
    {
      assert Scoring(queryVector, kept[i], p) == Success(r[i]);
    }
  }

  /** One entry of the list the chat model is given, numbered `n`. */
  function EntryText(n: nat, b: Listing): string {
    Decimal(n) + ". " + EntryDetails(b)
  }

  /** What an entry says about a record after its number. Unlike the middleware's
      `AiSearchMiddleware.EntryDetails`, it puts the description on the first line, with a
      default, and adds the zip code and any website and email. */
  function EntryDetails(b: Listing): string {
    b.businessName + " (" + b.category + ") - "
    + (if Truthy(b.description) then b.description.value else "No description")
    + "\n   " + b.address + ", " + b.city + ", " + b.state + " " + b.zipCode
    + "\n   Phone: " + b.phoneNumber
    + (if Truthy(b.website) then "\n   Website: " + b.website.value else "")
    + (if Truthy(b.email) then "\n   Email: " + b.email.value else "")
  }

  /** The entries, numbered from 1 in ranked order. */
  function Entries(results: seq<Listing>): (r: seq<string>)
    ensures |r| == |results|
  {
    seq(|results|, i requires 0 <= i < |results| => EntryText(i + 1, results[i]))
  }

  /** The user message of the chat request. */
  function UserMessage(query: string, results: seq<Listing>): string {
    "User question: \"" + query + "\"\n\nRelevant businesses:\n" + Join(Entries(results), "\n\n")
  }

  /** Each entry opens with its rank, which reads back as that number. */
  lemma EntryNumbered(results: seq<Listing>, i: nat)
    requires i < |results|
    ensures LeadingDigits(Entries(results)[i]) == Decimal(i + 1)
    ensures ParseDecimal(LeadingDigits(Entries(results)[i])) == i + 1
  {
    var rest := ". " + EntryDetails(results[i]);
    assert Entries(results)[i] == Decimal(i + 1) + rest;
    assert rest[0] == '.';
    LeadingDigitsOfNumeral(Decimal(i + 1), rest);
    DecimalRoundTrip(i + 1);
  }

  /** `completion.choices[0].message.content || 'No answer available'`: the model's text unless
      it is null or empty, so an answer is never empty. A completion without choices throws on
      `choices[0].message`, which is a failure of the `complete` step. */
  function AnswerText(content: Option<string>): (r: string)
    ensures r != ""
    ensures content.Some? && content.value != "" ==> r == content.value
    ensures content.None? || content.value == "" ==> r == NoAnswer
  {
    if content.Some? && content.value != "" then content.value else NoAnswer
  }

  /** The cache lookup: `None` to go on to compute the answer, otherwise the cached response marked
      `cached: true`, or the error reading or parsing it. */
  function FromCache(key: string, cache: Option<map<string, Entry<string>>>, p: Providers, f: Faults): Option<Result<SearchResponse, string>> {
    if cache.None? then None
    else if f.read.Some? then Some(Failure(f.read.value))
    else
      match Lookup(cache.value, key)
      case None => None
      case Some(text) =>
        if text == "" then None
        else
          match p.Decode(text)
          case Failure(e) => Some(Failure(e))
          case Success(r) => Some(Success(r.(cached := true)))
  }

  /** The records fetched with an embedding, scored against the query vector, ranked, cut to the
      top five and stripped of their scores' wrappers. */
  function Ranked(queryVector: seq<real>, rows: seq<Business>, p: Providers): Result<seq<Listing>, string> {
    var scored :- ScoreAll(queryVector, Select(rows, EmbeddingNotNull), p);
    Success(Items(TopK(scored, TopCount)))
  }

  /** The answer computed on a cache miss, before it is cached. */
  function Compute(query: string, rows: seq<Business>, p: Providers, f: Faults): Result<SearchResponse, string> {
    var queryVector :- p.Embed(query);
    if f.fetch.Some? then Failure(f.fetch.value)
    else
      var results :- Ranked(queryVector, rows, p);
      var content :- p.Complete(UserMessage(query, results));
      Success(SearchResponse(AnswerText(content), results, false))
  }

  /** `search`, on values: the reply to a request and the cache after it, where `compute` is what
      the pipeline after the cache lookup produces for the query (`Compute` over the table). */
  function Respond(query: Option<string>, apiKeySet: bool, cache: Option<map<string, Entry<string>>>,
                   compute: string -> Result<SearchResponse, string>, p: Providers, f: Faults): Outcome
  {
    if query.None? || Trim(query.value) == "" then Outcome(HttpError(400, QueryRequired), cache)
    else if !apiKeySet then Outcome(HttpError(503, KeyMissing), cache)
    else
      var key := CacheKey(query.value);
      match FromCache(key, cache, p, f)
      case Some(Failure(e)) => Outcome(HttpError(500, FailurePrefix + e), cache)
      case Some(Success(r)) => Outcome(Answered(r), cache)
      case None =>
        match compute(query.value)
        case Failure(e) => Outcome(HttpError(500, FailurePrefix + e), cache)
        case Success(response) =>
          if cache.None? then Outcome(Answered(response), None)
          else if f.write.Some? then Outcome(HttpError(500, FailurePrefix + f.write.value), cache)
          else Outcome(Answered(response), Some(Put(cache.value, key, p.Encode(response), AnswerTtl)))
  }

  /** The body of the `try` block after the cache lookup: embed, fetch, score, rank and ask. */
  method ComputeAnswer(query: string, table: YellowBookTable, p: Providers, f: Faults)
    returns (r: Result<SearchResponse, string>)
    ensures r == Compute(query, table.rows, p, f)
  {
    var queryVector := p.Embed(query);
    if queryVector.Failure? {
      return Failure(queryVector.error);
    }
    if f.fetch.Some? {
      return Failure(f.fetch.value);
    }
    var businesses := table.FindMany(EmbeddingNotNull);
    var scored := ScoreAll(queryVector.value, businesses, p);
    if scored.Failure? {
      return Failure(scored.error);
    }
    var results := Items(TopK(scored.value, TopCount));
    var completion := p.Complete(UserMessage(query, results));
    if completion.Failure? {
      return Failure(completion.error);
    }
    return Success(SearchResponse(AnswerText(completion.value), results, false));
  }

  /** `search` itself, over the Redis connection (null when none is configured) and the table. */
  method Search(query: Option<string>, apiKeySet: bool, redis: RedisStore?<string>, table: YellowBookTable,
                p: Providers, f: Faults) returns (reply: Reply)
    modifies redis
    ensures var rows := table.rows;
      var out := Respond(query, apiKeySet, if redis == null then None else Some(old(redis.entries)), q => Compute(q, rows, p, f), p, f);
      reply == out.reply && out.cache == (if redis == null then None else Some(redis.entries))
  {
    ghost var cache := if redis == null then None else Some(redis.entries);
    ghost var rows := table.rows;
    ghost var out := Respond(query, apiKeySet, cache, q => Compute(q, rows, p, f), p, f);
    if query.None? || Trim(query.value) == "" {
      assert out == Outcome(HttpError(400, QueryRequired), cache);
      return HttpError(400, QueryRequired);
    }
    if !apiKeySet {
      assert out == Outcome(HttpError(503, KeyMissing), cache);
      return HttpError(503, KeyMissing);
    }
    var cacheKey := CacheKey(query.value);
    if redis != null {
      if f.read.Some? {
        assert out == Outcome(HttpError(500, FailurePrefix + f.read.value), cache);
        return HttpError(500, FailurePrefix + f.read.value);
      }
      var cached := redis.Get(cacheKey);
      if cached.Some? && cached.value != "" {
        var parsed := p.Decode(cached.value);
        assert Lookup(cache.value, cacheKey) == cached;
        if parsed.Failure? {
          assert FromCache(cacheKey, cache, p, f) == Some(Failure(parsed.error));
          assert out == Outcome(HttpError(500, FailurePrefix + parsed.error), cache);
          return HttpError(500, FailurePrefix + parsed.error);
        }
        assert FromCache(cacheKey, cache, p, f) == Some(Success(parsed.value.(cached := true)));
        assert out == Outcome(Answered(parsed.value.(cached := true)), cache);
        return Answered(parsed.value.(cached := true));
      }
    }
    assert FromCache(cacheKey, cache, p, f) == None;
    ghost var computed := Compute(query.value, table.rows, p, f);
    assert out == match computed
      case Failure(e) => Outcome(HttpError(500, FailurePrefix + e), cache)
      case Success(response) =>
        if cache.None? then Outcome(Answered(response), None)
        else if f.write.Some? then Outcome(HttpError(500, FailurePrefix + f.write.value), cache)
        else Outcome(Answered(response), Some(Put(cache.value, cacheKey, p.Encode(response), AnswerTtl)));
    var computation := ComputeAnswer(query.value, table, p, f);
    if computation.Failure? {
      assert out == Outcome(HttpError(500, FailurePrefix + computation.error), cache);
      return HttpError(500, FailurePrefix + computation.error);
    }
    var response := computation.value;
    if redis != null {
      if f.write.Some? {
        assert out == Outcome(HttpError(500, FailurePrefix + f.write.value), cache);
        return HttpError(500, FailurePrefix + f.write.value);
      }
      redis.SetEx(cacheKey, AnswerTtl, p.Encode(response));
    }
    assert out == Outcome(Answered(response), if redis == null then None else Some(redis.entries));
    return Answered(response);
  }

  /** No similarity is NaN: every division of finite sums yields a number. */
  ghost predicate DivisionDefined(fp: Float) {
    forall x, y :: fp.Quotient(x, y).Num?
  }

  /** Listings are ranked highest similarity first. */
  predicate RankedBySimilarity(ls: seq<Listing>) {
    forall i, j :: 0 <= i < j < |ls| && ls[i].similarity.Num? && ls[j].similarity.Num? ==>
      ls[i].similarity.value >= ls[j].similarity.value
  }

  /** A request is refused with 400 exactly when the query is missing or only white space. */
  lemma RejectsBlankQuery(query: Option<string>, apiKeySet: bool, cache: Option<map<string, Entry<string>>>,
                          compute: string -> Result<SearchResponse, string>, p: Providers, f: Faults)
    ensures Respond(query, apiKeySet, cache, compute, p, f).reply == HttpError(400, QueryRequired) <==>
      query.None? || AllSpace(query.value)
  {
    if query.Some? {
      TrimEmptyIffAllSpace(query.value);
      if Trim(query.value) != "" {
        PastValidation(query.value, apiKeySet, cache, compute, p, f);
      }
    }
  }

  /** Once the query is past validation, no reply is a 400. */
  lemma PastValidation(query: string, apiKeySet: bool, cache: Option<map<string, Entry<string>>>,
                       compute: string -> Result<SearchResponse, string>, p: Providers, f: Faults)
    requires Trim(query) != ""
    ensures var out := Respond(Some(query), apiKeySet, cache, compute, p, f);
      out.reply.HttpError? ==> out.reply.status != 400
  {
    var out := Respond(Some(query), apiKeySet, cache, compute, p, f);
    if apiKeySet {
      match FromCache(CacheKey(query), cache, p, f)
      case Some(Failure(e)) =>
        assert out.reply.status == 500;
      case Some(Success(r)) =>
        assert out.reply.Answered?;
      case None =>
        match compute(query)
        case Failure(e) =>
          assert out.reply.status == 500;
        case Success(response) =>
          assert out.reply.Answered? || out.reply.status == 500;
    }
  }

  /** A missing API key is reported before the cache is consulted, whatever the cache holds. */
  lemma KeyCheckedBeforeCache(query: string, cache: Option<map<string, Entry<string>>>,
                              compute: string -> Result<SearchResponse, string>, p: Providers, f: Faults)
    requires !AllSpace(query)
    ensures Respond(Some(query), false, cache, compute, p, f) == Outcome(HttpError(503, KeyMissing), cache)
  {
    TrimEmptyIffAllSpace(query);
  }

  /** A non-empty cache entry under the query's key is answered from the cache, marked as cached,
      whatever the pipeline would have computed and without the cache changing. */
  lemma AnsweredFromCache(query: string, cache: map<string, Entry<string>>,
                          compute: string -> Result<SearchResponse, string>, p: Providers, f: Faults, text: string)
    requires !AllSpace(query) && f.read.None?
    requires Lookup(cache, CacheKey(query)) == Some(text) && text != ""
    requires p.Decode(text).Success?
    ensures Respond(Some(query), true, Some(cache), compute, p, f) ==
      Outcome(Answered(p.Decode(text).value.(cached := true)), Some(cache))
  {
    TrimEmptyIffAllSpace(query);
    assert FromCache(CacheKey(query), Some(cache), p, f) == Some(Success(p.Decode(text).value.(cached := true)));
  }

  /** The only change a request makes to the cache is the write of a freshly computed answer under
      the query's key; every error leaves the cache as it was, and every 500 names the failure
      after the fixed prefix. */
  lemma CacheWrittenOnlyWithAnswer(query: Option<string>, apiKeySet: bool, cache: Option<map<string, Entry<string>>>,
                                   compute: string -> Result<SearchResponse, string>, p: Providers, f: Faults)
    ensures var out := Respond(query, apiKeySet, cache, compute, p, f);
      out.cache != cache ==>
        && query.Some? && cache.Some? && out.reply.Answered?
        && compute(query.value) == Success(out.reply.response)
        && out.cache == Some(Put(cache.value, CacheKey(query.value), p.Encode(out.reply.response), AnswerTtl))
    ensures var out := Respond(query, apiKeySet, cache, compute, p, f);
      out.reply.HttpError? ==> out.cache == cache && out.reply.status in {400, 500, 503}
    ensures var out := Respond(query, apiKeySet, cache, compute, p, f);
      out.reply.HttpError? && out.reply.status == 500 ==> StartsWith(out.reply.message, FailurePrefix)
    ensures cache.None? ==> Respond(query, apiKeySet, cache, compute, p, f).cache.None?
  {
    var out := Respond(query, apiKeySet, cache, compute, p, f);
    if query.None? || Trim(query.value) == "" || !apiKeySet {
      assert out.cache == cache && out.reply.status in {400, 503};
    } else {
      var key := CacheKey(query.value);
      match FromCache(key, cache, p, f)
      case Some(Failure(e)) =>
        assert out == Outcome(HttpError(500, FailurePrefix + e), cache);
        Prefixed(FailurePrefix, e);
      case Some(Success(r)) =>
        assert out == Outcome(Answered(r), cache);
      case None =>
        match compute(query.value)
        case Failure(e) =>
          assert out == Outcome(HttpError(500, FailurePrefix + e), cache);
          Prefixed(FailurePrefix, e);
        case Success(response) =>
          if cache.None? {
            assert out == Outcome(Answered(response), None);
          } else if f.write.Some? {
            assert out == Outcome(HttpError(500, FailurePrefix + f.write.value), cache);
            Prefixed(FailurePrefix, f.write.value);
          } else {
            assert out == Outcome(Answered(response), Some(Put(cache.value, key, p.Encode(response), AnswerTtl)));
          }
    }
  }

  /** A message built as a prefix and a detail starts with the prefix. */
  lemma Prefixed(prefix: string, detail: string)
    ensures StartsWith(prefix + detail, prefix)
  {
    assert (prefix + detail)[..|prefix|] == prefix;
  }

  /** Queries with the same normal form share a cache key and are blank together. */
  lemma SameNormalForm(q1: string, q2: string)
    requires Normalize(q1) == Normalize(q2)
    ensures CacheKey(q1) == CacheKey(q2)
    ensures Trim(q1) == "" <==> Trim(q2) == ""
  {
    NormalizeEmptyIffBlank(q1);
    NormalizeEmptyIffBlank(q2);
  }

  /** Once a search has been answered with a cache configured, a later search whose query has the
      same normal form is answered from the cache with the same response, now marked as cached,
      provided the response survives JSON serialisation. */
  lemma RepeatedSearchHits(q1: string, q2: string, cache: map<string, Entry<string>>,
                           compute1: string -> Result<SearchResponse, string>, compute2: string -> Result<SearchResponse, string>,
                           p: Providers, f1: Faults, f2: Faults)
    requires Normalize(q1) == Normalize(q2)
    requires f2.read.None?
    requires Respond(Some(q1), true, Some(cache), compute1, p, f1).reply.Answered?
    requires var resp := Respond(Some(q1), true, Some(cache), compute1, p, f1).reply.response;
      p.Decode(p.Encode(resp)) == Success(resp) && p.Encode(resp) != ""
    ensures var first := Respond(Some(q1), true, Some(cache), compute1, p, f1);
      Respond(Some(q2), true, first.cache, compute2, p, f2) == Outcome(Answered(first.reply.response.(cached := true)), first.cache)
  {
    var first := Respond(Some(q1), true, Some(cache), compute1, p, f1);
    var key := CacheKey(q1);
    SameNormalForm(q1, q2);
    var resp := first.reply.response;
    match FromCache(key, Some(cache), p, f1)
    case Some(Success(r)) =>
      assert first == Outcome(Answered(r), Some(cache));
      assert FromCache(key, Some(cache), p, f2) == Some(Success(r));
    case None =>
      assert compute1(q1) == Success(resp) && f1.write.None?;
      assert first.cache == Some(Put(cache, key, p.Encode(resp), AnswerTtl));
      assert Lookup(first.cache.value, key) == Some(p.Encode(resp));
      assert FromCache(key, first.cache, p, f2) == Some(Success(resp.(cached := true)));
  }

  /** The ranking lists as many records as have an embedding, up to five; each listing shows a
      stored record with an embedding, with its score. */
  lemma RankedFromRecords(queryVector: seq<real>, rows: seq<Business>, p: Providers)
    requires Ranked(queryVector, rows, p).Success?
    ensures var candidates := |Select(Select(rows, EmbeddingNotNull), HasEmbedding)|;
      |Ranked(queryVector, rows, p).value| == if candidates < TopCount then candidates else TopCount
    ensures forall l :: l in Ranked(queryVector, rows, p).value ==>
      exists b :: b in rows && HasEmbedding(b) && l == ListingOf(b, l.similarity)
  {
    var fetched := Select(rows, EmbeddingNotNull);
    ScoreAllValues(queryVector, fetched, p);
    var results := Ranked(queryVector, rows, p).value;
    forall l | l in results
      ensures exists b :: b in rows && HasEmbedding(b) && l == ListingOf(b, l.similarity)
    {
      var i :| 0 <= i < |results| && results[i] == l;
      ListedRecord(queryVector, fetched, p, i);
    }
  }

  /** The `i`-th listing of the top five shows a fetched record with an embedding. */
  lemma ListedRecord(queryVector: seq<real>, fetched: seq<Business>, p: Providers, i: nat)
    requires ScoreAll(queryVector, fetched, p).Success?
    requires i < |TopK(ScoreAll(queryVector, fetched, p).value, TopCount)|
    ensures var l := TopK(ScoreAll(queryVector, fetched, p).value, TopCount)[i].item;
      exists b :: b in fetched && HasEmbedding(b) && l == ListingOf(b, l.similarity)
  {
    var scored := ScoreAll(queryVector, fetched, p).value;
    ScoreAllValues(queryVector, fetched, p);
    var kept := Select(fetched, HasEmbedding);
    var top := TopK(scored, TopCount);
    TopKDrawn(scored, TopCount, i);
    var j :| 0 <= j < |scored| && scored[j] == top[i];
    assert Scoring(queryVector, kept[j], p) == Success(top[i]);
    assert kept[j] in kept;
  }

  /** When no division yields NaN, the listings are ranked highest similarity first. */
  lemma RankedDescending(queryVector: seq<real>, rows: seq<Business>, p: Providers)
    requires Ranked(queryVector, rows, p).Success?
    requires DivisionDefined(p.fp)
    ensures RankedBySimilarity(Ranked(queryVector, rows, p).value)
  {
    var fetched := Select(rows, EmbeddingNotNull);
    var scored := ScoreAll(queryVector, fetched, p).value;
    ScoresCarried(queryVector, fetched, p);
    var top := TopK(scored, TopCount);
    var results := Items(top);
    assert results == Ranked(queryVector, rows, p).value;
    TopKDescending(scored, TopCount);
    forall i, j | 0 <= i < j < |results| && results[i].similarity.Num? && results[j].similarity.Num?
      ensures results[i].similarity.value >= results[j].similarity.value
    {
      TopKDrawn(scored, TopCount, i);
      TopKDrawn(scored, TopCount, j);
      assert !Outranks(top[j], top[i]);
    }
  }

  /** A computed answer is never empty, is not marked as cached and lists at most five records. */
  lemma ComputedAnswer(query: string, rows: seq<Business>, p: Providers, f: Faults)
    requires Compute(query, rows, p, f).Success?
    ensures var resp := Compute(query, rows, p, f).value;
      && resp.answer != "" && !resp.cached
      && |resp.businesses| <= TopCount
      && resp.businesses == Ranked(p.Embed(query).value, rows, p).value
  {
  }

  /** Unlike the middleware, the controller asks the chat model even when no record has an
      embedding: the request then succeeds exactly when the completion does, with no listings. */
  lemma GeneratesWithoutMatches(query: string, rows: seq<Business>, p: Providers, f: Faults)
    requires p.Embed(query).Success? && f.fetch.None?
    requires forall b :: b in rows ==> !HasEmbedding(b)
    ensures Compute(query, rows, p, f).Success? <==> p.Complete(UserMessage(query, [])).Success?
    ensures Compute(query, rows, p, f).Success? ==>
      Compute(query, rows, p, f).value == SearchResponse(AnswerText(p.Complete(UserMessage(query, [])).value), [], false)
  {
    var queryVector := p.Embed(query).value;
    var fetched := Select(rows, EmbeddingNotNull);
    assert forall b :: b in fetched ==> b in rows;
    ScoreAllNone(queryVector, fetched, p);
    assert Ranked(queryVector, rows, p) == Success([]);
  }
}
