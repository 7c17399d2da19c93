/**
 * How `LocalMediaSource.queryMedia` hands its query arguments to the content
 * resolver. Below API level O (26) the limit and offset become a textual
 * `LIMIT … OFFSET …` suffix of the sort clause; from O on, all five optional
 * arguments travel as entries of a query-argument bundle built by
 * `createSqlQueryBundle`. `queryAllAudio` fixes the arguments of the catalog
 * query.
 */
module MediaQuery {
  import opened Wrappers
  import opened Text
  import opened MediaStore

  /** The bundle keys of `android.content.ContentResolver`. */
  const QUERY_ARG_SQL_SELECTION: string := "android:query-arg-sql-selection"
  const QUERY_ARG_SQL_SELECTION_ARGS: string := "android:query-arg-sql-selection-args"
  const QUERY_ARG_SQL_SORT_ORDER: string := "android:query-arg-sql-sort-order"
  const QUERY_ARG_LIMIT: string := "android:query-arg-limit"
  const QUERY_ARG_OFFSET: string := "android:query-arg-offset"

  const QueryArgKeys: set<string> :=
    {QUERY_ARG_SQL_SELECTION, QUERY_ARG_SQL_SELECTION_ARGS, QUERY_ARG_SQL_SORT_ORDER, QUERY_ARG_LIMIT, QUERY_ARG_OFFSET}

  /** A value put into an `android.os.Bundle` with `putString`, `putStringArray` or `putInt`. */
  datatype BundleValue = StringValue(s: string) | StringArrayValue(a: seq<string>) | IntValue(n: Int32)

  type Bundle = map<string, BundleValue>

  /** The five optional query arguments `queryMedia` receives besides the URI and projection. */
  datatype QueryArgs = QueryArgs(
    selection: Option<string>,
    selectionArgs: Option<seq<string>>,
    sortOrder: Option<string>,
    limit: Option<Int32>,
    offset: Option<Int32>)

  predicate AllAbsent(a: QueryArgs) {
    a.selection.None? && a.selectionArgs.None? && a.sortOrder.None? && a.limit.None? && a.offset.None?
  }

  /** `b` holds one entry per present argument of `a`, with that argument's value, and nothing else. */
  predicate Encodes(b: Bundle, a: QueryArgs) {
    && b.Keys <= QueryArgKeys
    && (QUERY_ARG_SQL_SELECTION in b <==> a.selection.Some?)
    && (a.selection.Some? ==> b[QUERY_ARG_SQL_SELECTION] == StringValue(a.selection.value))
    && (QUERY_ARG_SQL_SELECTION_ARGS in b <==> a.selectionArgs.Some?)
    && (a.selectionArgs.Some? ==> b[QUERY_ARG_SQL_SELECTION_ARGS] == StringArrayValue(a.selectionArgs.value))
    && (QUERY_ARG_SQL_SORT_ORDER in b <==> a.sortOrder.Some?)
    && (a.sortOrder.Some? ==> b[QUERY_ARG_SQL_SORT_ORDER] == StringValue(a.sortOrder.value))
    && (QUERY_ARG_LIMIT in b <==> a.limit.Some?)
    && (a.limit.Some? ==> b[QUERY_ARG_LIMIT] == IntValue(a.limit.value))
    && (QUERY_ARG_OFFSET in b <==> a.offset.Some?)
    && (a.offset.Some? ==> b[QUERY_ARG_OFFSET] == IntValue(a.offset.value))
  }

  function Entry(key: string, v: Option<BundleValue>): Bundle {
    if v.Some? then map[key := v.value] else map[]
  }

  /** The bundle `createSqlQueryBundle` returns: absent when every argument is, else one entry per present argument. */
  function SqlQueryBundle(a: QueryArgs): (r: Option<Bundle>)
    ensures r.None? <==> AllAbsent(a)
    ensures r.Some? ==> Encodes(r.value, a)
  {
    if AllAbsent(a) then None
    else Some(
      Entry(QUERY_ARG_SQL_SELECTION, if a.selection.Some? then Some(StringValue(a.selection.value)) else None)
      + Entry(QUERY_ARG_SQL_SELECTION_ARGS, if a.selectionArgs.Some? then Some(StringArrayValue(a.selectionArgs.value)) else None)
      + Entry(QUERY_ARG_SQL_SORT_ORDER, if a.sortOrder.Some? then Some(StringValue(a.sortOrder.value)) else None)
      + Entry(QUERY_ARG_LIMIT, if a.limit.Some? then Some(IntValue(a.limit.value)) else None)
      + Entry(QUERY_ARG_OFFSET, if a.offset.Some? then Some(IntValue(a.offset.value)) else None))
  }

  /**
   * `createSqlQueryBundle`: returns null when all five arguments are null,
   * otherwise fills a fresh bundle by one conditional `put` per argument.
   */
  method CreateSqlQueryBundle(
    selection: Option<string>,
    selectionArgs: Option<seq<string>>,
    sortOrder: Option<string>,
    limit: Option<Int32>,
    offset: Option<Int32>)
    returns (bundle: Option<Bundle>)
    ensures bundle.None? <==>
              selection.None? && selectionArgs.None? && sortOrder.None? && limit.None? && offset.None?
    ensures bundle.Some? ==> Encodes(bundle.value, QueryArgs(selection, selectionArgs, sortOrder, limit, offset))
    ensures bundle == SqlQueryBundle(QueryArgs(selection, selectionArgs, sortOrder, limit, offset))
  {
    if selection.None? && selectionArgs.None? && sortOrder.None? && limit.None? && offset.None? {
      return None;
    }
    var queryArgs: Bundle := map[];
    if selection.Some? {
      queryArgs := queryArgs[QUERY_ARG_SQL_SELECTION := StringValue(selection.value)];
    }
    if selectionArgs.Some? {
      queryArgs := queryArgs[QUERY_ARG_SQL_SELECTION_ARGS := StringArrayValue(selectionArgs.value)];
    }
    if sortOrder.Some? {
      queryArgs := queryArgs[QUERY_ARG_SQL_SORT_ORDER := StringValue(sortOrder.value)];
    }
    if limit.Some? {
      queryArgs := queryArgs[QUERY_ARG_LIMIT := IntValue(limit.value)];
    }
    if offset.Some? {
      queryArgs := queryArgs[QUERY_ARG_OFFSET := IntValue(offset.value)];
    }
    bundle := Some(queryArgs);
    EncodesUnique(queryArgs, SqlQueryBundle(QueryArgs(selection, selectionArgs, sortOrder, limit, offset)).value,
                  QueryArgs(selection, selectionArgs, sortOrder, limit, offset));
  }

  /** A bundle is determined by the arguments it encodes. */
  lemma EncodesUnique(b1: Bundle, b2: Bundle, a: QueryArgs)
    requires Encodes(b1, a) && Encodes(b2, a)
    ensures b1 == b2
  {
    assert b1.Keys == b2.Keys;
  }

  /** How a provider reads the arguments back out of a query bundle (a key of the wrong type reads as absent). */
  function ReadQueryArgs(b: Option<Bundle>): QueryArgs {
    if b.None? then QueryArgs(None, None, None, None, None)
    else
      var m := b.value;
      QueryArgs(
        if QUERY_ARG_SQL_SELECTION in m && m[QUERY_ARG_SQL_SELECTION].StringValue?
        then Some(m[QUERY_ARG_SQL_SELECTION].s) else None,
        if QUERY_ARG_SQL_SELECTION_ARGS in m && m[QUERY_ARG_SQL_SELECTION_ARGS].StringArrayValue?
        then Some(m[QUERY_ARG_SQL_SELECTION_ARGS].a) else None,
        if QUERY_ARG_SQL_SORT_ORDER in m && m[QUERY_ARG_SQL_SORT_ORDER].StringValue?
        then Some(m[QUERY_ARG_SQL_SORT_ORDER].s) else None,
        if QUERY_ARG_LIMIT in m && m[QUERY_ARG_LIMIT].IntValue?
        then Some(m[QUERY_ARG_LIMIT].n) else None,
        if QUERY_ARG_OFFSET in m && m[QUERY_ARG_OFFSET].IntValue?
        then Some(m[QUERY_ARG_OFFSET].n) else None)
  }

  /** The structured form loses nothing: every argument reads back out of the bundle unchanged. */
  lemma BundleRoundTrip(a: QueryArgs)
    ensures ReadQueryArgs(SqlQueryBundle(a)) == a
  {
  }

  /**
   * The legacy suffix: empty when neither limit nor offset is given, otherwise
   * "LIMIT <limit or -1> " followed by "OFFSET <offset>" when an offset is given.
   */
  function LimitOrder(limit: Option<Int32>, offset: Option<Int32>): (r: string)
    ensures r == "" <==> limit.None? && offset.None?
  {
    if limit.Some? || offset.Some? then
      "LIMIT " + (IntToString(if limit.Some? then limit.value else -1) + " " + OffsetClause(offset))
    else ""
  }

  /**
   * The sort argument of the legacy call, "$sortOrder  $limitOrder": the sort
   * order ("null" when there is none), two spaces, and a suffix that reads back
   * as the limit and offset; it ends in the two spaces exactly when neither is given.
   */
  function LegacySortOrder(sortOrder: Option<string>, limit: Option<Int32>, offset: Option<Int32>): (r: string)
    ensures |r| >= |Render(sortOrder)| + 2
    ensures r[..|Render(sortOrder)|] == Render(sortOrder) && r[|Render(sortOrder)|..|Render(sortOrder)| + 2] == "  "
    ensures sortOrder.None? ==> r[..4] == "null"
    ensures ParseLimitOrder(r[|Render(sortOrder)| + 2..])
         == Some((if limit.None? && offset.Some? then Some(-1) else Widen(limit), Widen(offset)))
    ensures r == Render(sortOrder) + "  " <==> limit.None? && offset.None?
  {
    var prefix := Render(sortOrder) + "  ";
    var suffix := LimitOrder(limit, offset);
    LimitOrderRoundTrip(limit, offset);
    assert (prefix + suffix)[|Render(sortOrder)| + 2..] == suffix;
    assert (prefix + suffix)[..|Render(sortOrder)|] == Render(sortOrder);
    assert |prefix + suffix| == |prefix| ==> suffix == "";
    prefix + suffix
  }

  /** Widens a Kotlin `Int?` to an unbounded integer. */
  function Widen(x: Option<Int32>): Option<int> {
    if x.Some? then Some(x.value as int) else None
  }

  /** How SQL reads a legacy suffix back: its limit and offset, or `None` when it is not of that form. */
  function ParseLimitOrder(s: string): Option<(Option<int>, Option<int>)> {
    if s == "" then Some((None, None))
    else if |s| >= 6 && s[..6] == "LIMIT " then ParseLimitBody(s[6..])
    else None
  }

  /** Reads "<limit> <offset clause>". */
  function ParseLimitBody(rest: string): Option<(Option<int>, Option<int>)> {
    var k := IndexOf(rest, ' ');
    if k < 0 then None
    else
      var limit :- ParseInt(rest[..k]);
      var offset :- ParseOffsetClause(rest[k + 1..]);
      Some((Some(limit), offset))
  }

  /** Reads "" as no offset and "OFFSET <n>" as offset n. */
  function ParseOffsetClause(t: string): Option<Option<int>> {
    if t == "" then Some(None)
    else if |t| >= 7 && t[..7] == "OFFSET " then
      var offset :- ParseInt(t[7..]);
      Some(Some(offset))
    else None
  }

  /** The text after "LIMIT <n> " in a legacy suffix. */
  function OffsetClause(offset: Option<Int32>): string {
    if offset.Some? then "OFFSET " + IntToString(offset.value) else ""
  }

  lemma OffsetClauseRoundTrip(offset: Option<Int32>)
    ensures ParseOffsetClause(OffsetClause(offset)) == Some(Widen(offset))
  {
    if offset.Some? {
      var t := OffsetClause(offset);
      assert t[..7] == "OFFSET ";
      assert t[7..] == IntToString(offset.value);
      IntToStringRoundTrip(offset.value);
    }
  }

  lemma LimitBodyRoundTrip(n: int, offset: Option<Int32>)
    ensures ParseLimitBody(IntToString(n) + " " + OffsetClause(offset)) == Some((Some(n), Widen(offset)))
  {
    var lim := IntToString(n);
    var tail := OffsetClause(offset);
    var rest := lim + " " + tail;
    assert rest == lim + [' '] + tail;
    DecimalHasNoSeparator(lim);
    IndexOfJoin(lim, ' ', tail);
    assert rest[..|lim|] == lim;
    IntToStringRoundTrip(n);
    assert rest[|lim| + 1..] == tail;
    OffsetClauseRoundTrip(offset);
  }

  lemma ParseLimitPrefix(body: string)
    ensures ParseLimitOrder("LIMIT " + body) == ParseLimitBody(body)
  {
    var s := "LIMIT " + body;
    assert s[..6] == "LIMIT " && s[6..] == body;
  }

  /**
   * The suffix can be read back: the offset exactly, and the limit exactly,
   * except that an offset without a limit reads as limit -1 (SQLite's "no limit").
   */
  lemma LimitOrderRoundTrip(limit: Option<Int32>, offset: Option<Int32>)
    ensures ParseLimitOrder(LimitOrder(limit, offset))
         == Some((if limit.None? && offset.Some? then Some(-1) else Widen(limit), Widen(offset)))
  {
    if limit.Some? || offset.Some? {
      var n := if limit.Some? then limit.value else -1;
      var body := IntToString(n) + " " + OffsetClause(offset);
      ParseLimitPrefix(body);
      LimitBodyRoundTrip(n, offset);
    }
  }

  /** The call `queryMedia` makes on the content resolver. */
  datatype QueryCall =
    | LegacyQuery(uri: string, projection: Option<seq<string>>, selection: Option<string>,
                  selectionArgs: Option<seq<string>>, sortOrder: string)
    | StructuredQuery(uri: string, projection: Option<seq<string>>, queryArgs: Option<Bundle>)

  /**
   * The SDK-level fork of `queryMedia`: below O the textual form, otherwise
   * the bundle form. Either way the URI, projection, selection and its
   * arguments reach the resolver unchanged.
   */
  function EncodeQuery(sdkInt: int, uri: string, projection: Option<seq<string>>, a: QueryArgs): (r: QueryCall)
    ensures r.LegacyQuery? <==> sdkInt < VERSION_O
    ensures r.uri == uri && r.projection == projection
    ensures r.LegacyQuery? ==>
              r.selection == a.selection && r.selectionArgs == a.selectionArgs
              && r.sortOrder == Render(a.sortOrder) + "  " + LimitOrder(a.limit, a.offset)
    ensures r.StructuredQuery? ==> r.queryArgs == SqlQueryBundle(a) && ReadQueryArgs(r.queryArgs) == a
  {
    if sdkInt < VERSION_O then
      LegacyQuery(uri, projection, a.selection, a.selectionArgs, LegacySortOrder(a.sortOrder, a.limit, a.offset))
    else
      BundleRoundTrip(a);
      StructuredQuery(uri, projection, SqlQueryBundle(a))
  }

  /** `TimeUnit.MILLISECONDS.convert(m, TimeUnit.MINUTES)`. */
  function MinutesToMillis(m: int): int {
    m * 60 * 1000
  }

  /** The arguments `queryAllAudio` passes: tracks of at least two minutes, nothing else. */
  function CatalogArgs(): (r: QueryArgs)
    ensures r == QueryArgs(Some("duration >= ?"), Some(["120000"]), None, None, None)
  {
    assert MinutesToMillis(2) == 120000;
    assert DURATION + " >= ?" == "duration >= ?";
    assert NatToString(1) == "1";
    assert NatToString(12) == "12";
    assert NatToString(120) == "120";
    assert NatToString(1200) == "1200";
    assert NatToString(12000) == "12000";
    assert NatToString(120000) == "120000";
    assert IntToString(120000) == "120000";
    QueryArgs(Some(DURATION + " >= ?"), Some([IntToString(MinutesToMillis(2))]), None, None, None)
  }

  /**
   * `queryAllAudio`: the external audio table, every column, the duration
   * filter, and no sort order, limit or offset.
   */
  function CatalogQuery(sdkInt: int): (r: QueryCall)
    ensures r.LegacyQuery? <==> sdkInt < VERSION_O
    ensures r.uri == EXTERNAL_CONTENT_URI && r.projection == None
    ensures r.LegacyQuery? ==>
              r.selection == Some("duration >= ?") && r.selectionArgs == Some(["120000"]) && r.sortOrder == "null  "
    ensures r.StructuredQuery? ==> r.queryArgs.Some? && Encodes(r.queryArgs.value, CatalogArgs())
  {
    EncodeQuery(sdkInt, EXTERNAL_CONTENT_URI, None, CatalogArgs())
  }

  /** The catalog query, built on either path, spelled out in full. */
  lemma CatalogQueryShape(sdkInt: int)
    ensures sdkInt < VERSION_O ==>
              CatalogQuery(sdkInt)
              == LegacyQuery(EXTERNAL_CONTENT_URI, None, Some("duration >= ?"), Some(["120000"]), "null  ")
    ensures sdkInt >= VERSION_O ==>
              CatalogQuery(sdkInt)
              == StructuredQuery(EXTERNAL_CONTENT_URI, None,
                                 Some(map[QUERY_ARG_SQL_SELECTION := StringValue("duration >= ?"),
                                          QUERY_ARG_SQL_SELECTION_ARGS := StringArrayValue(["120000"])]))
  {
    var expected := map[QUERY_ARG_SQL_SELECTION := StringValue("duration >= ?"),
                        QUERY_ARG_SQL_SELECTION_ARGS := StringArrayValue(["120000"])];
    EncodesUnique(SqlQueryBundle(CatalogArgs()).value, expected, CatalogArgs());
  }
}
