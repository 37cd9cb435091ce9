/** The Express handler `searchWithAI` and its helpers: the same retrieval-augmented search as
    the NestJS controller, with its own cache key, its own unguarded similarity, a short answer
    when nothing is found and a JSON error body. The OpenAI client, JSON, the database and Redis
    failures are parameters. */
module AiSearchMiddleware {
  import opened Wrappers
  import opened Text
  import opened KeyValue
  import opened VectorMath
  import opened Ranking
  import opened Directory

  /** The Redis client's `retryStrategy`: wait 50 ms more for each attempt, at most 2 s, and never
      give up. */
  function RetryDelay(times: nat): (delay: nat)
    ensures delay <= 2000
    ensures times <= 40 ==> delay == 50 * times
    ensures times >= 40 ==> delay == 2000
  {
    if times * 50 < 2000 then times * 50 else 2000
  }

  /** Later attempts never wait less. */
  lemma RetryDelayMonotone(earlier: nat, later: nat)
    requires earlier <= later
    ensures RetryDelay(earlier) <= RetryDelay(later)
  {
  }

  /** What a thrown value contributes to the error body: an `Error`'s message, or nothing to say. */
  datatype Thrown = Error(message: string) | NotAnError

  /** `error instanceof Error ? error.message : 'Unknown error'`. */
  function Details(t: Thrown): (r: string)
    ensures t.Error? ==> r == t.message
    ensures t.NotAnError? ==> r == "Unknown error"
  {
    if t.Error? then t.message else "Unknown error"
  }

  /** `req.body.query`: absent (or `undefined`), a string, or some other JSON value. */
  datatype QueryField = Missing | Text(value: string) | NotText

  /** The columns the handler returns for a record. */
  datatype Summary = Summary(
    id: string, businessName: string, category: string, phoneNumber: string,
    address: string, city: string, state: string, description: Option<string>)

  /** The JSON bodies the handler sends. */
  datatype Body =
    | Found(answer: string, businesses: seq<Summary>)
    | Problem(error: string, details: Option<string>)

  /** A status code and a body. */
  datatype Reply = Reply(status: nat, body: Body)

  /** A reply and the cache after it. */
  datatype Outcome = Outcome(reply: Reply, cache: map<string, Entry<string>>)

  /** The services the handler calls: the embeddings endpoint, `JSON.parse` of an embedding
      column, the chat completion of the user prompt (its content may be null), the
      floating-point operations, and `JSON.stringify`/`JSON.parse` of a body. */
  datatype Providers = Providers(
    embed: string -> Result<seq<real>, Thrown>,
    parseVector: string -> Result<seq<real>, Thrown>,
    complete: string -> Result<Option<string>, Thrown>,
    fp: Float,
    stringify: Body -> string,
    parse: string -> Result<Body, Thrown>)
  {
    function Embed(text: string): Result<seq<real>, Thrown> { embed(text) }
    function ParseVector(text: string): Result<seq<real>, Thrown> { parseVector(text) }
    function Complete(prompt: string): Result<Option<string>, Thrown> { complete(prompt) }
    function Stringify(body: Body): string { stringify(body) }
    function Parse(text: string): Result<Body, Thrown> { parse(text) }
  }

  /** What the Redis GET, the Redis SETEX and the database query throw, if anything. */
  datatype Faults = Faults(read: Option<Thrown>, write: Option<Thrown>, fetch: Option<Thrown>)

  const KeyPrefix: string := "ai-search:"
  const DefaultLimit: nat := 5
  const AnswerTtl: nat := 3600
  const QueryRequired: string := "Query is required"
  const ProcessingFailed: string := "Failed to process AI search"
  const NothingFound: string := "I couldn't find any businesses matching your query. Try rephrasing or broadening your search."
  const NoResponse: string := "No response generated."

  /** `!query || typeof query !== 'string'`: the query is accepted when it is a non-empty string,
      even one made only of white space. */
  predicate Accepted(query: QueryField) {
    query.Text? && query.value != ""
  }

  /** The cache key: the prefix and the lower-cased, trimmed query. */
  function CacheKey(query: string): string {
    KeyPrefix + Normalize(query)
  }

  /** The records in the database that have an embedding, parsed and scored in order; the first
      embedding that does not parse makes the whole search fail. */
  function ScoreEach(queryEmbedding: seq<real>, rows: seq<Business>, p: Providers): Result<seq<Scored<Business>>, Thrown> {
    if rows == [] then Success([])
    else
      var vector :- p.ParseVector(OrEmpty(rows[0].embedding));
      var rest :- ScoreEach(queryEmbedding, rows[1..], p);
      Success([Scored(rows[0], UnguardedCosine(queryEmbedding, vector, p.fp))] + rest)
  }

  /** When every embedding parses, each record keeps its place and gets the middleware's score. */
  lemma {:induction false} ScoreEachMeaning(queryEmbedding: seq<real>, rows: seq<Business>, p: Providers)
    ensures ScoreEach(queryEmbedding, rows, p).Success? <==>
      forall i :: 0 <= i < |rows| ==> p.ParseVector(OrEmpty(rows[i].embedding)).Success?
    ensures ScoreEach(queryEmbedding, rows, p).Success? ==>
      var r := ScoreEach(queryEmbedding, rows, p).value;
      && |r| == |rows|
      && forall i :: 0 <= i < |rows| ==>
           r[i] == Scored(rows[i], UnguardedCosine(queryEmbedding, p.ParseVector(OrEmpty(rows[i].embedding)).value, p.fp))
  {
    if rows != [] {
      ScoreEachMeaning(queryEmbedding, rows[1..], p);
      if ScoreEach(queryEmbedding, rows, p).Success? {
        var r := ScoreEach(queryEmbedding, rows, p).value;
        forall i | 1 <= i < |rows|
          ensures r[i] == Scored(rows[i], UnguardedCosine(queryEmbedding, p.ParseVector(OrEmpty(rows[i].embedding)).value, p.fp))
        {
          assert rows[i] == rows[1..][i - 1];
        }
      } else if p.ParseVector(OrEmpty(rows[0].embedding)).Success? {
        var i :| 0 <= i < |rows[1..]| && p.ParseVector(OrEmpty(rows[1..][i].embedding)).Failure?;
        assert rows[i + 1] == rows[1..][i];
      }
    }
  }

  /** `findSimilarBusinesses(queryEmbedding, limit)` over the table's rows. */
  function FindSimilarBusinesses(queryEmbedding: seq<real>, rows: seq<Business>, p: Providers, limit: nat): Result<seq<Business>, Thrown> {
    var similarities :- ScoreEach(queryEmbedding, Select(rows, EmbeddingNotNull), p);
    Success(Items(TopK(similarities, limit)))
  }

  /** The search returns as many records as have an embedding, up to the limit, each of them a
      stored record with an embedding. */
  lemma FoundAmongRecords(queryEmbedding: seq<real>, rows: seq<Business>, p: Providers, limit: nat)
    requires FindSimilarBusinesses(queryEmbedding, rows, p, limit).Success?
    ensures var found := FindSimilarBusinesses(queryEmbedding, rows, p, limit).value;
      var candidates := |Select(rows, EmbeddingNotNull)|;
      |found| == if limit < candidates then limit else candidates
    ensures forall b :: b in FindSimilarBusinesses(queryEmbedding, rows, p, limit).value ==>
      b in rows && b.embedding.Some?
  {
    var fetched := Select(rows, EmbeddingNotNull);
    ScoreEachMeaning(queryEmbedding, fetched, p);
    var found := FindSimilarBusinesses(queryEmbedding, rows, p, limit).value;
    forall b | b in found
      ensures b in rows && b.embedding.Some?
    {
      var i :| 0 <= i < |found| && found[i] == b;
      FoundRecord(queryEmbedding, fetched, p, limit, i);
    }
  }

  /** The `i`-th of the top records is one of the records that were scored. */
  lemma FoundRecord(queryEmbedding: seq<real>, fetched: seq<Business>, p: Providers, limit: nat, i: nat)
    requires ScoreEach(queryEmbedding, fetched, p).Success?
    requires i < |TopK(ScoreEach(queryEmbedding, fetched, p).value, limit)|
    ensures TopK(ScoreEach(queryEmbedding, fetched, p).value, limit)[i].item in fetched
  {
    ScoreEachMeaning(queryEmbedding, fetched, p);
    var scored := ScoreEach(queryEmbedding, fetched, p).value;
    TopKDrawn(scored, limit, i);
    var j :| 0 <= j < |scored| && scored[j] == TopK(scored, limit)[i];
    assert fetched[j] in fetched;
  }

  /** When every stored vector is as long as the query's and no division yields NaN, the records
      come highest similarity first, and none left out scores above one returned. */
  lemma FoundBestFirst(queryEmbedding: seq<real>, rows: seq<Business>, p: Providers, limit: nat)
    requires FindSimilarBusinesses(queryEmbedding, rows, p, limit).Success?
    requires forall x, y :: p.fp.Quotient(x, y).Num?
    requires forall b :: b in rows && b.embedding.Some? && p.ParseVector(b.embedding.value).Success? ==>
      |p.ParseVector(b.embedding.value).value| >= |queryEmbedding|
    ensures var scored := ScoreEach(queryEmbedding, Select(rows, EmbeddingNotNull), p).value;
      && FindSimilarBusinesses(queryEmbedding, rows, p, limit).value == Items(TopK(scored, limit))
      && Descending(TopK(scored, limit))
      && forall x, y :: x in TopK(scored, limit) && y in scored && y !in TopK(scored, limit) ==> !Outranks(y, x)
  {
    var fetched := Select(rows, EmbeddingNotNull);
    ScoreEachMeaning(queryEmbedding, fetched, p);
    var scored := ScoreEach(queryEmbedding, fetched, p).value;
    assert AllNumbers(scored) by {
      forall i | 0 <= i < |scored|
        ensures scored[i].similarity.Num?
      {
        assert fetched[i] in rows;
      }
    }
    TopKBest(scored, limit);
  }

  /** One entry of the context the chat model is given, numbered `n`. */
  function ContextEntry(n: nat, b: Business): string {
    Decimal(n) + ". " + EntryDetails(b)
  }

  /** What an entry says about a record after its number. Unlike the controller's
      `YellowBooksController.EntryDetails`, it labels the address, leaves out the zip code,
      website and email, and ends with the description, empty when there is none. */
  function EntryDetails(b: Business): string {
    b.businessName + " (" + b.category + ")\n   Address: " + b.address + ", " + b.city + ", " + b.state
    + "\n   Phone: " + b.phoneNumber + "\n   " + (if Truthy(b.description) then b.description.value else "")
  }

  /** The entries, numbered from 1 in ranked order. */
  function ContextEntries(businesses: seq<Business>): (r: seq<string>)
    ensures |r| == |businesses|
  {
    seq(|businesses|, i requires 0 <= i < |businesses| => ContextEntry(i + 1, businesses[i]))
  }

  /** The user prompt of the chat request. */
  function UserPrompt(query: string, businesses: seq<Business>): string {
    "User query: \"" + query + "\"\n\nRelevant businesses:\n" + Join(ContextEntries(businesses), "\n\n")
    + "\n\nProvide a helpful response with recommendations."
  }

  /** Each entry opens with its rank, which reads back as that number. */
  lemma ContextEntryNumbered(businesses: seq<Business>, i: nat)
    requires i < |businesses|
    ensures LeadingDigits(ContextEntries(businesses)[i]) == Decimal(i + 1)
    ensures ParseDecimal(LeadingDigits(ContextEntries(businesses)[i])) == i + 1
  {
    var rest := ". " + EntryDetails(businesses[i]);
    assert ContextEntries(businesses)[i] == Decimal(i + 1) + rest;
    assert rest[0] == '.';
    LeadingDigitsOfNumeral(Decimal(i + 1), rest);
    DecimalRoundTrip(i + 1);
  }

  /** `generateAIResponse`: the model's text unless it is null or empty. */
  function GenerateAIResponse(query: string, businesses: seq<Business>, p: Providers): (r: Result<string, Thrown>)
    ensures r.Success? ==> r.value != ""
    ensures r.Success? <==> p.Complete(UserPrompt(query, businesses)).Success?
    ensures r.Failure? ==> r.error == p.Complete(UserPrompt(query, businesses)).error
  {
    var content :- p.Complete(UserPrompt(query, businesses));
    Success(if content.Some? && content.value != "" then content.value else NoResponse)
  }

  /** The projection of a record into the response. */
  function SummaryOf(b: Business): Summary {
    Summary(b.id, b.businessName, b.category, b.phoneNumber, b.address, b.city, b.state, b.description)
  }

  /** `businesses.map(b => ({ id, businessName, ... }))`. */
  function Summaries(businesses: seq<Business>): (r: seq<Summary>)
    ensures |r| == |businesses|
    ensures forall i :: 0 <= i < |businesses| ==> r[i].id == businesses[i].id && r[i] == SummaryOf(businesses[i])
  {
    if businesses == [] then [] else [SummaryOf(businesses[0])] + Summaries(businesses[1..])
  }

  /** The error reply of the `catch` block. */
  function Failed(t: Thrown): Reply {
    Reply(500, Problem(ProcessingFailed, Some(Details(t))))
  }

  /** The embedding of the query followed by the similarity search over the table's rows. */
  function Similar(query: string, rows: seq<Business>, p: Providers, f: Faults): Result<seq<Business>, Thrown> {
    var queryEmbedding :- p.Embed(query);
    if f.fetch.Some? then Failure(f.fetch.value)
    else FindSimilarBusinesses(queryEmbedding, rows, p, DefaultLimit)
  }

  /** `searchWithAI`, on values: the reply and the cache after it, where `similar` is what the
      embedding and similarity search produce for the query (`Similar` over the table) and
      `generate` what the chat model answers about the records found (`GenerateAIResponse`). */
  function Handle(query: QueryField, cache: map<string, Entry<string>>,
                  similar: string -> Result<seq<Business>, Thrown>,
                  generate: (string, seq<Business>) -> Result<string, Thrown>, p: Providers, f: Faults): Outcome
  {
    if !Accepted(query) then Outcome(Reply(400, Problem(QueryRequired, None)), cache)
    else if f.read.Some? then Outcome(Failed(f.read.value), cache)
    else
      var key := CacheKey(query.value);
      var cached := Lookup(cache, key);
      if cached.Some? && cached.value != "" then
        match p.Parse(cached.value)
        case Failure(t) => Outcome(Failed(t), cache)
        case Success(body) => Outcome(Reply(200, body), cache)
      else
        match similar(query.value)
        case Failure(t) => Outcome(Failed(t), cache)
        case Success(businesses) =>
          if businesses == [] then Outcome(Reply(200, Found(NothingFound, [])), cache)
          else
            match generate(query.value, businesses)
            case Failure(t) => Outcome(Failed(t), cache)
            case Success(answer) =>
              var result := Found(answer, Summaries(businesses));
              if f.write.Some? then Outcome(Failed(f.write.value), cache)
              else Outcome(Reply(200, result), Put(cache, key, p.Stringify(result), AnswerTtl))
  }

  /** `searchWithAI` itself, over the Redis client and the table. */
  method SearchWithAI(query: QueryField, redis: RedisStore<string>, table: YellowBookTable, p: Providers, f: Faults)
    returns (reply: Reply)
    modifies redis
    ensures var rows := table.rows;
      var out := Handle(query, old(redis.entries), q => Similar(q, rows, p, f), (q, bs) => GenerateAIResponse(q, bs, p), p, f);
      reply == out.reply && redis.entries == out.cache
  {
    ghost var cache := redis.entries;
    ghost var rows := table.rows;
    ghost var out := Handle(query, cache, q => Similar(q, rows, p, f), (q, bs) => GenerateAIResponse(q, bs, p), p, f);
    if query.Missing? || query.NotText? || query.value == "" {
      assert out == Outcome(Reply(400, Problem(QueryRequired, None)), cache);
      return Reply(400, Problem(QueryRequired, None));
    }
    var cacheKey := CacheKey(query.value);
    if f.read.Some? {
      assert out == Outcome(Failed(f.read.value), cache);
      return Failed(f.read.value);
    }
    var cached := redis.Get(cacheKey);
    if cached.Some? && cached.value != "" {
      var parsed := p.Parse(cached.value);
      if parsed.Failure? {
        assert out == Outcome(Failed(parsed.error), cache);
        return Failed(parsed.error);
      }
      assert out == Outcome(Reply(200, parsed.value), cache);
      return Reply(200, parsed.value);
    }
    var businesses := FindSimilar(query.value, table, p, f);
    if businesses.Failure? {
      assert out == Outcome(Failed(businesses.error), cache);
      return Failed(businesses.error);
    }
    if businesses.value == [] {
      assert out == Outcome(Reply(200, Found(NothingFound, [])), cache);
      return Reply(200, Found(NothingFound, []));
    }
    var answer := GenerateAIResponse(query.value, businesses.value, p);
    if answer.Failure? {
      assert out == Outcome(Failed(answer.error), cache);
      return Failed(answer.error);
    }
    var result := Found(answer.value, Summaries(businesses.value));
    if f.write.Some? {
      assert out == Outcome(Failed(f.write.value), cache);
      return Failed(f.write.value);
    }
    redis.SetEx(cacheKey, AnswerTtl, p.Stringify(result));
    assert out == Outcome(Reply(200, result), redis.entries);
    return Reply(200, result);
  }

  /** The embedding request and the similarity search over the table. */
  method FindSimilar(query: string, table: YellowBookTable, p: Providers, f: Faults) returns (r: Result<seq<Business>, Thrown>)
    ensures r == Similar(query, table.rows, p, f)
  {
    var queryEmbedding := p.Embed(query);
    if queryEmbedding.Failure? {
      return Failure(queryEmbedding.error);
    }
    if f.fetch.Some? {
      return Failure(f.fetch.value);
    }
    var businesses := table.FindMany(EmbeddingNotNull);
    var similarities := ScoreEach(queryEmbedding.value, businesses, p);
    if similarities.Failure? {
      return Failure(similarities.error);
    }
    return Success(Items(TopK(similarities.value, DefaultLimit)));
  }

  /** A request is refused with 400 exactly when the query is missing, not a string or empty; a
      query of white space alone is accepted. A refusal leaves the cache as it was. */
  lemma RejectsMissingQuery(query: QueryField, cache: map<string, Entry<string>>,
                            similar: string -> Result<seq<Business>, Thrown>,
                            generate: (string, seq<Business>) -> Result<string, Thrown>, p: Providers, f: Faults)
    ensures Handle(query, cache, similar, generate, p, f).reply.status == 400 <==>
      query.Missing? || query.NotText? || query.value == ""
    ensures Handle(query, cache, similar, generate, p, f).reply.status == 400 ==>
      Handle(query, cache, similar, generate, p, f) == Outcome(Reply(400, Problem(QueryRequired, None)), cache)
  {
  }

  /** A non-empty cache entry under the query's key is sent back as it was parsed, whatever the
      search would have found, and the cache does not change. */
  lemma AnsweredFromCache(query: string, cache: map<string, Entry<string>>,
                          similar: string -> Result<seq<Business>, Thrown>,
                          generate: (string, seq<Business>) -> Result<string, Thrown>, p: Providers, f: Faults, text: string)
    requires query != "" && f.read.None?
    requires Lookup(cache, CacheKey(query)) == Some(text) && text != ""
    requires p.Parse(text).Success?
    ensures Handle(Text(query), cache, similar, generate, p, f) == Outcome(Reply(200, p.Parse(text).value), cache)
  {
  }

  /** When the search finds nothing the fixed apology is sent, the chat model is not asked and
      nothing is cached, so the same query searches again next time. */
  lemma NothingFoundNotCached(query: string, cache: map<string, Entry<string>>,
                              similar: string -> Result<seq<Business>, Thrown>,
                              generate: (string, seq<Business>) -> Result<string, Thrown>, p: Providers, f: Faults,
                              other: (string, seq<Business>) -> Result<string, Thrown>)
    requires query != "" && f.read.None?
    requires Lookup(cache, CacheKey(query)).None?
    requires similar(query) == Success([])
    ensures Handle(Text(query), cache, similar, generate, p, f) == Outcome(Reply(200, Found(NothingFound, [])), cache)
    ensures Handle(Text(query), cache, similar, other, p, f) == Handle(Text(query), cache, similar, generate, p, f)
  {
  }

  /** The only change a request makes to the cache is the write, under the query's key and for an
      hour, of a freshly generated answer listing at least one record; every failure is a 500 with
      the fixed error and the thrown message, and leaves the cache as it was. */
  lemma CacheWrittenOnlyWithAnswer(query: QueryField, cache: map<string, Entry<string>>,
                                   similar: string -> Result<seq<Business>, Thrown>,
                                   generate: (string, seq<Business>) -> Result<string, Thrown>, p: Providers, f: Faults)
    ensures var out := Handle(query, cache, similar, generate, p, f);
      out.cache != cache ==>
        && query.Text? && out.reply.status == 200 && out.reply.body.Found?
        && similar(query.value).Success? && similar(query.value).value != []
        && generate(query.value, similar(query.value).value) == Success(out.reply.body.answer)
        && out.reply.body.businesses == Summaries(similar(query.value).value)
        && out.cache == Put(cache, CacheKey(query.value), p.Stringify(out.reply.body), AnswerTtl)
    ensures var out := Handle(query, cache, similar, generate, p, f);
      out.reply.status != 200 ==> out.cache == cache && out.reply.status in {400, 500}
    ensures var out := Handle(query, cache, similar, generate, p, f);
      out.reply.status == 500 ==> out.reply.body.Problem? && out.reply.body.error == ProcessingFailed && out.reply.body.details.Some?
  {
    var out := Handle(query, cache, similar, generate, p, f);
    if !Accepted(query) || f.read.Some? {
      assert out.cache == cache;
    } else {
      var key := CacheKey(query.value);
      var cached := Lookup(cache, key);
      if cached.Some? && cached.value != "" {
        assert out.cache == cache;
      } else {
        match similar(query.value)
        case Failure(t) =>
          assert out == Outcome(Failed(t), cache);
        case Success(businesses) =>
          if businesses == [] {
            assert out.cache == cache && out.reply.status == 200;
          } else {
            match generate(query.value, businesses)
            case Failure(t) =>
              assert out == Outcome(Failed(t), cache);
            case Success(answer) =>
              var result := Found(answer, Summaries(businesses));
              if f.write.Some? {
                assert out == Outcome(Failed(f.write.value), cache);
              } else {
                assert out == Outcome(Reply(200, result), Put(cache, key, p.Stringify(result), AnswerTtl));
              }
          }
      }
    }
  }

  /** Once a search has sent records with their answer, a later search whose query has the same
      normal form gets the very same reply from the cache, provided the body survives JSON. */
  lemma RepeatedSearchHits(q1: string, q2: string, cache: map<string, Entry<string>>,
                           similar1: string -> Result<seq<Business>, Thrown>, similar2: string -> Result<seq<Business>, Thrown>,
                           generate: (string, seq<Business>) -> Result<string, Thrown>, p: Providers, f1: Faults, f2: Faults)
    requires q2 != "" && Normalize(q1) == Normalize(q2)
    requires f2.read.None?
    requires var first := Handle(Text(q1), cache, similar1, generate, p, f1).reply;
      first.status == 200 && first.body.Found? && first.body.businesses != []
    requires var body := Handle(Text(q1), cache, similar1, generate, p, f1).reply.body;
      p.Parse(p.Stringify(body)) == Success(body) && p.Stringify(body) != ""
    ensures var first := Handle(Text(q1), cache, similar1, generate, p, f1);
      Handle(Text(q2), first.cache, similar2, generate, p, f2) == first
  {
    var first := Handle(Text(q1), cache, similar1, generate, p, f1);
    CacheKeyShared(q1, q2);
    var cached := Lookup(cache, CacheKey(q1));
    if cached.Some? && cached.value != "" {
      AnsweredFromCache(q1, cache, similar1, generate, p, f1, cached.value);
      AnsweredFromCache(q2, cache, similar2, generate, p, f2, cached.value);
    } else {
      WrittenAfterMiss(q1, cache, similar1, generate, p, f1);
      AnsweredFromCache(q2, first.cache, similar2, generate, p, f2, p.Stringify(first.reply.body));
    }
  }

  /** A search that misses the cache and sends records stores its reply's body under its key. */
  lemma WrittenAfterMiss(query: string, cache: map<string, Entry<string>>,
                         similar: string -> Result<seq<Business>, Thrown>,
                         generate: (string, seq<Business>) -> Result<string, Thrown>, p: Providers, f: Faults)
    requires var cached := Lookup(cache, CacheKey(query)); !(cached.Some? && cached.value != "")
    requires var out := Handle(Text(query), cache, similar, generate, p, f).reply;
      out.status == 200 && out.body.Found? && out.body.businesses != []
    ensures var out := Handle(Text(query), cache, similar, generate, p, f);
      Lookup(out.cache, CacheKey(query)) == Some(p.Stringify(out.reply.body))
  {
  }

  /** Two queries share a cache entry exactly when they agree once lower-cased and trimmed. The
      controller's `YellowBooksController.CacheKeyShared` is the same statement under its own
      prefix. */
  lemma CacheKeyShared(q1: string, q2: string)
    ensures CacheKey(q1) == CacheKey(q2) <==> Normalize(q1) == Normalize(q2)
  {
    PrefixCancels(KeyPrefix, Normalize(q1), Normalize(q2));
  }
}
