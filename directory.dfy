/** The `YellowBook` table of business records the search services read and the embedding
    scripts write: the record, the queries on it, and the one update the scripts issue. */
module Directory {
  import opened Wrappers

  /** One business record. The optional columns are nullable; `embedding` holds the serialised
      vector once a script has computed it. */
  datatype Business = Business(
    id: string, businessName: string, category: string, phoneNumber: string,
    address: string, city: string, state: string, zipCode: string,
    description: Option<string>, website: Option<string>, email: Option<string>,
    embedding: Option<string>)

  /** `x || ''` on a nullable text column. */
  function OrEmpty(o: Option<string>): (r: string)
    ensures o.Some? ==> r == o.value
    ensures o.None? ==> r == ""
  {
    if o.Some? then o.value else ""
  }

  /** JavaScript truthiness of a nullable text column: present and not empty. */
  predicate Truthy(o: Option<string>) {
    o.Some? && o.value != ""
  }

  /** The filter both search services query with: `embedding: { not: null }`. */
  predicate EmbeddingNotNull(b: Business) {
    b.embedding.Some?
  }

  /** The primary key: no two rows share an id. */
  predicate UniqueIds(rows: seq<Business>) {
    forall i, j :: 0 <= i < j < |rows| ==> rows[i].id != rows[j].id
  }

  /** Some row has this id. */
  predicate HasId(rows: seq<Business>, id: string) {
    exists i :: 0 <= i < |rows| && rows[i].id == id
  }

  /** `findMany({ where })`: the rows satisfying the filter, in table order. */
  function Select(rows: seq<Business>, keep: Business -> bool): (r: seq<Business>)
    ensures |r| <= |rows|
    ensures forall b :: b in r <==> b in rows && keep(b)
  {
    if rows == [] then []
    else
      var rest := Select(rows[1..], keep);
      assert forall b :: b in rows[1..] ==> b in rows;
      if keep(rows[0]) then [rows[0]] + rest else rest
  }

  /** Selecting rows keeps the primary key unique. */
  lemma {:induction false} SelectKeepsUniqueIds(rows: seq<Business>, keep: Business -> bool)
    requires UniqueIds(rows)
    ensures UniqueIds(Select(rows, keep))
  {
    if rows != [] {
      var rest := Select(rows[1..], keep);
      assert UniqueIds(rows[1..]);
      SelectKeepsUniqueIds(rows[1..], keep);
      forall b | b in rest
        ensures b.id != rows[0].id
      {
        assert b in rows[1..];
      }
    }
  }

  /** `update({ where: { id }, data: { embedding } })` on the values: the row with that id gets the
      new column value and every other row and column is as it was. */
  function SetEmbedding(rows: seq<Business>, id: string, embedding: Option<string>): (r: seq<Business>)
    ensures |r| == |rows|
    ensures forall j :: 0 <= j < |rows| ==> r[j].id == rows[j].id
    ensures forall j :: 0 <= j < |rows| && rows[j].id == id ==> r[j] == rows[j].(embedding := embedding)
    ensures forall j :: 0 <= j < |rows| && rows[j].id != id ==> r[j] == rows[j]
  {
    if rows == [] then []
    else [if rows[0].id == id then rows[0].(embedding := embedding) else rows[0]] + SetEmbedding(rows[1..], id, embedding)
  }

  /** The table after the records of `done` were updated in turn, each to the column value
      `written` gives it; a record for which nothing was written is left as it was. */
  function Backfilled(rows: seq<Business>, done: seq<Business>, written: Business -> Option<string>): (r: seq<Business>)
    ensures |r| == |rows|
    ensures forall j :: 0 <= j < |rows| ==> r[j].id == rows[j].id
  {
    if done == [] then rows
    else
      var before := Backfilled(rows, done[..|done| - 1], written);
      var last := done[|done| - 1];
      if written(last).Some? then SetEmbedding(before, last.id, written(last)) else before
  }

  /** A backfill touches no column but the embedding. */
  lemma {:induction false} BackfilledOnlyEmbedding(rows: seq<Business>, done: seq<Business>, written: Business -> Option<string>, j: nat)
    requires j < |rows|
    ensures Backfilled(rows, done, written)[j] == rows[j].(embedding := Backfilled(rows, done, written)[j].embedding)
  {
    if done != [] {
      BackfilledOnlyEmbedding(rows, done[..|done| - 1], written, j);
    }
  }

  /** A row whose record was processed and written to holds what was written for it. */
  lemma {:induction false} BackfilledWritten(rows: seq<Business>, done: seq<Business>, written: Business -> Option<string>, j: nat, k: nat)
    requires UniqueIds(done)
    requires j < |rows| && k < |done|
    requires done[k].id == rows[j].id && written(done[k]).Some?
    ensures Backfilled(rows, done, written)[j] == rows[j].(embedding := written(done[k]))
  {
    var init := done[..|done| - 1];
    if k == |done| - 1 {
      BackfilledOnlyEmbedding(rows, init, written, j);
    } else {
      assert init[k] == done[k];
      assert UniqueIds(init);
      BackfilledWritten(rows, init, written, j, k);
    }
  }

  /** A row for which no processed record had a value written is left as it was. */
  lemma {:induction false} BackfilledUntouched(rows: seq<Business>, done: seq<Business>, written: Business -> Option<string>, j: nat)
    requires j < |rows|
    requires forall k :: 0 <= k < |done| && done[k].id == rows[j].id ==> written(done[k]).None?
    ensures Backfilled(rows, done, written)[j] == rows[j]
  {
    if done != [] {
      var init := done[..|done| - 1];
      forall k | 0 <= k < |init| && init[k].id == rows[j].id
        ensures written(init[k]).None?
      {
        assert init[k] == done[k];
      }
      BackfilledUntouched(rows, init, written, j);
    }
  }

  /** How many records of `done` got a value written. */
  function Written(done: seq<Business>, written: Business -> Option<string>): (n: nat)
    ensures n <= |done|
  {
    if done == [] then 0 else Written(done[..|done| - 1], written) + (if written(done[|done| - 1]).Some? then 1 else 0)
  }

  /** A record selected from the table can still be found by its id after any backfill. */
  lemma SelectedStillThere(rows: seq<Business>, keep: Business -> bool, done: seq<Business>, written: Business -> Option<string>, b: Business)
    requires b in Select(rows, keep)
    ensures HasId(Backfilled(rows, done, written), b.id)
  {
    var j :| 0 <= j < |rows| && rows[j] == b;
    assert Backfilled(rows, done, written)[j].id == b.id;
  }

  /** One more record processed: the count and the table after it follow from those before it. */
  lemma BackfillStep(rows: seq<Business>, done: seq<Business>, written: Business -> Option<string>, i: nat)
    requires i < |done|
    ensures Written(done[..i + 1], written) == Written(done[..i], written) + (if written(done[i]).Some? then 1 else 0)
    ensures Backfilled(rows, done[..i + 1], written) ==
      if written(done[i]).Some? then SetEmbedding(Backfilled(rows, done[..i], written), done[i].id, written(done[i]))
      else Backfilled(rows, done[..i], written)
  {
    assert done[..i + 1][..i] == done[..i];
  }

  /** The `YellowBook` table. */
  class YellowBookTable {
    var rows: seq<Business>

    constructor(initial: seq<Business>)
      ensures rows == initial
    {
      rows := initial;
    }

    /** `findMany({ where })`. */
    method FindMany(keep: Business -> bool) returns (r: seq<Business>)
      ensures r == Select(rows, keep)
    {
      r := Select(rows, keep);
    }

    /** `update({ where: { id }, data: { embedding } })`: fails when no row has the id or the
        database refuses the write (`fault`), and then changes nothing. */
    method Update(id: string, embedding: Option<string>, fault: bool) returns (ok: bool)
      modifies this
      ensures ok <==> !fault && HasId(old(rows), id)
      ensures rows == if ok then SetEmbedding(old(rows), id, embedding) else old(rows)
    {
      ok := !fault && exists i :: 0 <= i < |rows| && rows[i].id == id;
      if ok {
        rows := SetEmbedding(rows, id, embedding);
      }
    }
  }
}
