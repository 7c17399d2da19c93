/**
 * `LocalMediaSource`: the catalog of local audio tracks and its three-state
 * load lifecycle. `load` runs the catalog query; the resolver's answer (no
 * cursor at all, or the cursor's rows in order) is the input here.
 */
module CatalogLoader {
  import opened Wrappers
  import opened Text
  import opened RowMapper

  /** The load states the media source moves through. */
  datatype State = Initializing | Initialized | Error

  predicate AllWellTyped(rows: seq<Row>) {
    forall i :: 0 <= i < |rows| ==> WellTyped(rows[i])
  }

  /**
   * The catalog the mapping block of `updateCatalog` builds from `rows`: one
   * record per row, in cursor order, or the exception of the first row whose
   * path has no separator.
   */
  function MapAll(rows: seq<Row>): (r: Result<seq<Metadata>, StringIndexOutOfBounds>)
    requires AllWellTyped(rows)
    ensures r.Success? <==> forall i :: 0 <= i < |rows| ==> MapRow(rows[i]).Success?
    ensures r.Success? ==>
              |r.value| == |rows| && forall i :: 0 <= i < |rows| ==> MapRow(rows[i]) == Success(r.value[i])
  {
    if rows == [] then Success([])
    else
      var first :- MapRow(rows[0]);
      var rest :- MapAll(rows[1..]);
      assert forall i :: 1 <= i < |rows| ==> rows[i] == rows[1..][i - 1];
      Success([first] + rest)
  }

  /**
   * The block `updateCatalog` hands to `queryAllAudio`: one fresh builder per
   * row, `from(cursor).build()` appended to a list, until the cursor is exhausted.
   */
  method UpdateCatalog(rows: seq<Row>) returns (r: Result<seq<Metadata>, StringIndexOutOfBounds>)
    requires AllWellTyped(rows)
    ensures r == MapAll(rows)
  {
    var resultList: seq<Metadata> := [];
    var i := 0;
    while i < |rows|
      invariant 0 <= i <= |rows|
      invariant |resultList| == i
      invariant forall k :: 0 <= k < i ==> MapRow(rows[k]) == Success(resultList[k])
    {
      var builder := new MetadataBuilder();
      var outcome := builder.From(rows[i]);
      if outcome.Fail? {
        assert MapRow(rows[i]).Failure?;
        assert MapAll(rows).Failure? && MapAll(rows).error == outcome.error;
        return Failure(outcome.error);
      }
      resultList := resultList + [builder.Build()];
      i := i + 1;
    }
    assert MapAll(rows).Success?;
    assert MapAll(rows).value == resultList;
    r := Success(resultList);
  }

  /** The media source: its current catalog and load state. */
  class LocalMediaSource {
    var catalog: seq<Metadata>
    var state: State

    /** After construction the source is initializing and its catalog is empty. */
    constructor ()
      ensures catalog == [] && state == Initializing
    {
      catalog := [];
      state := Initializing;
    }

    /** `iterator()`: the current catalog, as it is. */
    method Iterator() returns (tracks: seq<Metadata>)
      ensures tracks == catalog
    {
      tracks := catalog;
    }

    /**
     * `load()`. With no cursor the catalog is emptied and the state is ERROR;
     * with rows, the catalog becomes one record per row, in order, and the
     * state INITIALIZED. An exception thrown while mapping leaves both as they were.
     */
    method Load(cursor: Option<seq<Row>>) returns (outcome: Outcome<StringIndexOutOfBounds>)
      requires cursor.Some? ==> AllWellTyped(cursor.value)
      modifies this
      ensures cursor.None? ==> outcome == Pass && catalog == [] && state == Error
      ensures cursor.Some? ==> (outcome.Pass? <==> MapAll(cursor.value).Success?)
      ensures cursor.Some? && outcome.Pass? ==>
                catalog == MapAll(cursor.value).value && |catalog| == |cursor.value| && state == Initialized
      ensures outcome.Fail? ==> catalog == old(catalog) && state == old(state)
    {
      if cursor.None? {
        catalog := [];
        state := Error;
        return Pass;
      }
      var updated := UpdateCatalog(cursor.value);
      if updated.Failure? {
        return Fail(updated.error);
      }
      catalog := updated.value;
      state := Initialized;
      outcome := Pass;
    }
  }

  /** A row that lacks a column contributes a blank record; it is not skipped. */
  lemma MissingColumnKeepsRow(rows: seq<Row>, i: nat)
    requires AllWellTyped(rows) && i < |rows| && !HasColumns(rows[i])
    requires MapAll(rows).Success?
    ensures MapAll(rows).value[i] == Blank
  {
  }
}
