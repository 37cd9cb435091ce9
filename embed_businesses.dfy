/** The backfill script that computes a Gemini embedding for every business record still
    lacking one. The embedding service, the way an array reaches the text column and the
    database's refusals are parameters; the one-second pauses between requests are counted. */
module EmbedBusinesses {
  import opened Wrappers
  import opened Text
  import opened Directory

  /** The fields that describe a record for embedding, in order, keeping only the non-empty ones:
      name, category, city, state, description. */
  function EmbeddingParts(b: Business): (parts: seq<string>)
    ensures forall i :: 0 <= i < |parts| ==> parts[i] != ""
    ensures |parts| <= 5
  {
    var parts := if b.businessName != "" then [b.businessName] else [];
    var parts := if b.category != "" then parts + [b.category] else parts;
    var parts := if b.city != "" then parts + [b.city] else parts;
    var parts := if b.state != "" then parts + [b.state] else parts;
    if Truthy(b.description) then parts + [b.description.value] else parts
  }

  /** The text the script embeds for a record. */
  function EmbeddingText(b: Business): string {
    Join(EmbeddingParts(b), " ")
  }

  /** `generateEmbeddingText`: pushes each present field and joins them with single spaces. */
  method GenerateEmbeddingText(b: Business) returns (text: string)
    ensures text == EmbeddingText(b)
  {
    var parts: seq<string> := [];
    if b.businessName != "" { parts := [b.businessName]; }
    if b.category != "" { parts := parts + [b.category]; }
    if b.city != "" { parts := parts + [b.city]; }
    if b.state != "" { parts := parts + [b.state]; }
    if Truthy(b.description) { parts := parts + [b.description.value]; }
    text := Join(parts, " ");
  }

  /** The text is empty exactly when the record has none of the five fields, and otherwise its
      length is that of the fields present plus one space between each neighbouring pair. */
  lemma EmbeddingTextShape(b: Business)
    ensures EmbeddingText(b) == "" <==>
      b.businessName == "" && b.category == "" && b.city == "" && b.state == "" && !Truthy(b.description)
    ensures EmbeddingParts(b) != [] ==>
      |EmbeddingText(b)| == TotalLength(EmbeddingParts(b)) + |EmbeddingParts(b)| - 1
  {
    JoinEmptyIff(EmbeddingParts(b), " ");
    JoinLength(EmbeddingParts(b), " ");
  }

  /** A record with a name is embedded under a text that opens with that name. */
  lemma EmbeddingTextStartsWithName(b: Business)
    requires b.businessName != ""
    ensures StartsWith(EmbeddingText(b), b.businessName)
  {
    var parts := EmbeddingParts(b);
    assert parts[0] == b.businessName;
    if |parts| > 1 {
      assert EmbeddingText(b) == b.businessName + " " + Join(parts[1..], " ");
    }
  }

  /** Records the script selects: those whose embedding is null. */
  predicate LacksEmbedding(b: Business) {
    b.embedding.None?
  }

  /** What the script writes to a record's embedding column, or nothing when embedding it failed
      or the database refused the update. The script hands the database the raw number array
      (`embedding as any`), not its JSON text, so `store` stands for whatever text the column
      keeps for that array, and a database that will not take an array is `updateFails`. Its twin
      `GenerateEmbeddings.WrittenBy` embeds a different text and writes `JSON.stringify`. */
  function WrittenBy(embed: string -> Result<seq<real>, string>, store: seq<real> -> string, updateFails: string -> bool): Business -> Option<string> {
    b => if embed(EmbeddingText(b)).Success? && !updateFails(b.id) then Some(store(embed(EmbeddingText(b)).value)) else None
  }

  /** The body of the loop for one record: embed its text and store the vector; `ok` tells whether
      both steps succeeded, and only then has the record changed. It differs from its twin
      `GenerateEmbeddings.EmbedOne` only in the text embedded and in how the vector is stored. */
  method EmbedOne(table: YellowBookTable, business: Business, embed: string -> Result<seq<real>, string>,
                  store: seq<real> -> string, updateFails: string -> bool)
    returns (ok: bool)
    requires HasId(table.rows, business.id)
    modifies table
    ensures var w := WrittenBy(embed, store, updateFails)(business);
      && ok == w.Some?
      && table.rows == if ok then SetEmbedding(old(table.rows), business.id, w) else old(table.rows)
  {
    var text := GenerateEmbeddingText(business);
    var embedding := embed(text);
    if embedding.Failure? {
      return false;
    }
    ok := table.Update(business.id, Some(store(embedding.value)), updateFails(business.id));
  }

  /** The pause skipped once the last of the records has been processed: 1 when a value was
      written for it, and 0 before then or when nothing was written. */
  function LastPauseSkipped(businesses: seq<Business>, i: nat, written: Business -> Option<string>): nat {
    if i == |businesses| && i > 0 && written(businesses[i - 1]).Some? then 1 else 0
  }

  /** `embedAllBusinesses`: each selected record is embedded and updated in turn; a failure of
      either counts as an error and the loop goes on; every success but one on the last record is
      followed by a pause. A failing `findMany` is the fatal case, which does nothing. */
  method EmbedAllBusinesses(table: YellowBookTable, embed: string -> Result<seq<real>, string>, store: seq<real> -> string,
                            updateFails: string -> bool, selectFails: bool)
    returns (successCount: nat, errorCount: nat, pauses: nat)
    modifies table
    ensures selectFails ==> successCount == 0 && errorCount == 0 && pauses == 0 && table.rows == old(table.rows)
    ensures !selectFails ==>
      var selected := Select(old(table.rows), LacksEmbedding);
      var written := WrittenBy(embed, store, updateFails);
      && successCount + errorCount == |selected|
      && successCount == Written(selected, written)
      && pauses + LastPauseSkipped(selected, |selected|, written) == successCount
      && table.rows == Backfilled(old(table.rows), selected, written)
  {
    successCount, errorCount, pauses := 0, 0, 0;
    if selectFails {
      return;
    }
    var businesses := table.FindMany(LacksEmbedding);
    ghost var rows0 := table.rows;
    ghost var written := WrittenBy(embed, store, updateFails);
    for i := 0 to |businesses|
      invariant successCount + errorCount == i
      invariant successCount == Written(businesses[..i], written)
      invariant pauses + LastPauseSkipped(businesses, i, written) == successCount
      invariant table.rows == Backfilled(rows0, businesses[..i], written)
    {
      BackfillStep(rows0, businesses, written, i);
      SelectedStillThere(rows0, LacksEmbedding, businesses[..i], written, businesses[i]);
      var ok := EmbedOne(table, businesses[i], embed, store, updateFails);
      if ok {
        successCount := successCount + 1;
        if i < |businesses| - 1 {
          pauses := pauses + 1;
        }
      } else {
        errorCount := errorCount + 1;
      }
    }
    assert businesses[..|businesses|] == businesses;
  }
}
