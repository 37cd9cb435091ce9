/** The offline script that computes an OpenAI embedding for every business record whose
    embedding column is null or empty and stores it as a JSON string. The embedding service, the
    JSON rendering of a vector and the database's refusals are parameters; the 100 ms pauses
    are counted. */
module GenerateEmbeddings {
  import opened Wrappers
  import opened Text
  import opened Directory

  /** `createBusinessText`: name, category, description, full address, website and email in one
      sentence-like line; a missing optional column contributes nothing. */
  function CreateBusinessText(b: Business): string {
    b.businessName + " - " + b.category + ". " + OrEmpty(b.description)
    + " Located at " + b.address + ", " + b.city + ", " + b.state + " " + b.zipCode + ". "
    + OrEmpty(b.website) + " " + OrEmpty(b.email)
  }

  /** The text opens with the name and the category. */
  lemma CreateBusinessTextOpensWithName(b: Business)
    ensures StartsWith(CreateBusinessText(b), b.businessName + " - " + b.category + ". ")
  {
    var head := b.businessName + " - " + b.category + ". ";
    assert CreateBusinessText(b)[..|head|] == head;
  }

  /** Every field is kept whole: the template adds 25 characters of its own. */
  lemma CreateBusinessTextLength(b: Business)
    ensures |CreateBusinessText(b)| == 25 + |b.businessName| + |b.category| + |OrEmpty(b.description)|
      + |b.address| + |b.city| + |b.state| + |b.zipCode| + |OrEmpty(b.website)| + |OrEmpty(b.email)|
  {
  }

  /** The text does not tell a null optional column from an empty one. */
  lemma CreateBusinessTextNullIsEmpty(b: Business)
    ensures CreateBusinessText(b.(description := None, website := None, email := None))
         == CreateBusinessText(b.(description := Some(""), website := Some(""), email := Some("")))
  {
  }

  /** Records the script selects: embedding null or the empty string. */
  predicate NeedsEmbedding(b: Business) {
    b.embedding.None? || b.embedding == Some("")
  }

  /** What the script writes to a record's embedding column: the JSON text of its vector, or
      nothing when embedding it failed or the database refused the update. Its twin
      `EmbedBusinesses.WrittenBy` embeds `EmbeddingText` and hands over the raw array. */
  function WrittenBy(embed: string -> Result<seq<real>, string>, stringify: seq<real> -> string, updateFails: string -> bool): Business -> Option<string> {
    b => if embed(CreateBusinessText(b)).Success? && !updateFails(b.id) then Some(stringify(embed(CreateBusinessText(b)).value)) else None
  }

  /** The body of the loop for one record: embed its text and store the vector; `ok` tells whether
      both steps succeeded, and only then has the record changed. It differs from its twin
      `EmbedBusinesses.EmbedOne` only in the text embedded and in the stored form of the vector. */
  method EmbedOne(table: YellowBookTable, business: Business, embed: string -> Result<seq<real>, string>,
                  stringify: seq<real> -> string, updateFails: string -> bool)
    returns (ok: bool)
    requires HasId(table.rows, business.id)
    modifies table
    ensures var w := WrittenBy(embed, stringify, updateFails)(business);
      && ok == w.Some?
      && table.rows == if ok then SetEmbedding(old(table.rows), business.id, w) else old(table.rows)
  {
    var text := CreateBusinessText(business);
    var embedding := embed(text);
    if embedding.Failure? {
      return false;
    }
    ok := table.Update(business.id, Some(stringify(embedding.value)), updateFails(business.id));
  }

  /** `main`: each selected record is embedded and updated in turn; a failure of either counts as
      an error and the loop goes on; every success, the last one included, is followed by a pause.
      A failing `findMany` aborts the script before any record is processed. */
  method GenerateAll(table: YellowBookTable, embed: string -> Result<seq<real>, string>, stringify: seq<real> -> string,
                     updateFails: string -> bool, selectFails: bool)
    returns (processed: nat, errors: nat, pauses: nat)
    modifies table
    ensures selectFails ==> processed == 0 && errors == 0 && pauses == 0 && table.rows == old(table.rows)
    ensures !selectFails ==>
      var selected := Select(old(table.rows), NeedsEmbedding);
      var written := WrittenBy(embed, stringify, updateFails);
      && processed + errors == |selected|
      && processed == Written(selected, written)
      && pauses == processed
      && table.rows == Backfilled(old(table.rows), selected, written)
  {
    processed, errors, pauses := 0, 0, 0;
    if selectFails {
      return;
    }
    var businesses := table.FindMany(NeedsEmbedding);
    ghost var rows0 := table.rows;
    ghost var written := WrittenBy(embed, stringify, updateFails);
    for i := 0 to |businesses|
      invariant processed + errors == i
      invariant processed == Written(businesses[..i], written)
      invariant pauses == processed
      invariant table.rows == Backfilled(rows0, businesses[..i], written)
    {
      BackfillStep(rows0, businesses, written, i);
      SelectedStillThere(rows0, NeedsEmbedding, businesses[..i], written, businesses[i]);
      var ok := EmbedOne(table, businesses[i], embed, stringify, updateFails);
      if ok {
        processed := processed + 1;
        pauses := pauses + 1;
      } else {
        errors := errors + 1;
      }
    }
    assert businesses[..|businesses|] == businesses;
  }
}
