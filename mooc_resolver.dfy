/**
 * `MoocResolver`: the facade over the content resolver, one method per
 * table and operation. The resolver's replies are unconstrained apart from
 * a returned cursor being new, open and read by Android's getters (see
 * `Android.ContentResolver`); what is specified is what each method passes
 * to it, read off the resolver's call log, and how the reply is turned into
 * the method's result.
 */
module MoocResolverFacade {
  import opened JavaLang
  import opened MoocSchema
  import opened Android
  import opened StoryOrm
  import opened TagsOrm

  /**
   * The selection arguments `{ String.valueOf(rowID) }` used by the by-id
   * methods: one non-null argument, which reads back as `rowID`. Two calls
   * therefore pass the same arguments only for the same id.
   */
  function RowIdArgs(rowID: Long): (args: Option<seq<JString>>)
    ensures args.Some? && |args.value| == 1 && args.value[0] == Some(LongToString(rowID))
    ensures ParseLong(args.value[0].value) == rowID
  {
    ParseLongToString(rowID);
    Some([Some(LongToString(rowID))])
  }

  /**
   * How `queryStoryData` turns the cursor it got into its outcome: a null
   * cursor makes `result.close()` throw; a row that lacks a Story column
   * makes the converter throw before the cursor is closed; otherwise the
   * cursor is closed and the records are the rows as the cursor's getters
   * read them, in row order. A cursor from the resolver reads as Android's
   * does, so a cell holding a value of its column's kind is read as stored.
   */
  ghost predicate StoryQueryOutcome(cursor: Cursor?, r: Result<seq<StoryData>>)
    reads cursor, if r.Success? then r.value else []
  {
    if cursor == null then r == Failure(NullPointerException)
    else if !AllHaveStoryColumns(cursor.rows) then
      && r == Failure(IllegalStateException) && !cursor.closed
      && AndroidGetters(cursor.getters)
    else
      && r.Success? && cursor.closed && cursor.closeCount == 1
      && AndroidGetters(cursor.getters)
      && |r.value| == |cursor.rows|
      && forall i :: 0 <= i < |r.value| ==> r.value[i].Value() == StoryFromRow(cursor.getters, cursor.rows[i])
  }

  /** `queryTagsData`'s outcome, as for `StoryQueryOutcome`. */
  ghost predicate TagsQueryOutcome(cursor: Cursor?, r: Result<seq<TagsData>>)
    reads cursor, if r.Success? then r.value else []
  {
    if cursor == null then r == Failure(NullPointerException)
    else if !AllHaveTagsColumns(cursor.rows) then
      && r == Failure(IllegalStateException) && !cursor.closed
      && AndroidGetters(cursor.getters)
    else
      && r.Success? && cursor.closed && cursor.closeCount == 1
      && AndroidGetters(cursor.getters)
      && |r.value| == |cursor.rows|
      && forall i :: 0 <= i < |r.value| ==> r.value[i].Value() == TagsFromRow(cursor.getters, cursor.rows[i])
  }

  /**
   * What a caller of `queryStoryData` learns about a record: when its row
   * holds every column with the kind `getCVfromStory` writes, the record
   * holds exactly the row's values.
   */
  lemma QueriedStoryHoldsRowValues(cursor: Cursor, r: Result<seq<StoryData>>, i: int)
    requires StoryQueryOutcome(cursor, r) && r.Success?
    requires 0 <= i < |cursor.rows| && IsStoryRow(cursor.rows[i])
    ensures i < |r.value|
    ensures var row := cursor.rows[i];
      r.value[i].Value() == Story(
        row[ID].l, row[LOGIN_ID].l, row[STORY_ID].l,
        row[TITLE].s, row[BODY].s, row[AUDIO_LINK].s, row[VIDEO_LINK].s,
        row[IMAGE_NAME].s, row[IMAGE_LINK].s, row[TAGS].s,
        row[CREATION_TIME].l, row[STORY_TIME].l,
        row[LATITUDE].d, row[LONGITUDE].d)
  {
    ReadWellKindedStoryRow(cursor.getters, cursor.rows[i]);
  }

  /** The same for `queryTagsData` and a row of the kinds `getCVfromTags` writes. */
  lemma QueriedTagsHoldsRowValues(cursor: Cursor, r: Result<seq<TagsData>>, i: int)
    requires TagsQueryOutcome(cursor, r) && r.Success?
    requires 0 <= i < |cursor.rows| && IsTagsRow(cursor.rows[i])
    ensures i < |r.value|
    ensures var row := cursor.rows[i];
      r.value[i].Value() == Tags(row[ID].l, row[LOGIN_ID].l, row[STORY_ID].l, row[TAG].s)
  {
    RowToTagsToRow(cursor.getters, cursor.rows[i]);
  }

  /**
   * `get*ViaRowID`'s outcome from its query's outcome: the first record when
   * there is one, `None` (null) when there is none; an exception passes through.
   */
  predicate FirstOf<T(==)>(q: Result<seq<T>>, r: Result<Option<T>>) {
    match q
    case Failure(e) => r == Failure(e)
    case Success(list) => r == Success(if |list| > 0 then Some(list[0]) else None)
  }

  class MoocResolver {
    const cr: ContentResolver
    const storyURI: Uri := StoryContentUri
    const tagsURI: Uri := TagsContentUri

    /** The constructor, given the resolver the activity hands out. */
    constructor (cr: ContentResolver)
      ensures this.cr == cr && storyURI == StoryContentUri && tagsURI == TagsContentUri
    {
      this.cr := cr;
    }

    /**
     * `bulkInsertStory`: one call, whose array holds the records' rows in
     * list order; the resolver's count is returned as it came.
     */
    method BulkInsertStory(data: seq<StoryData>) returns (n: Int)
      modifies cr
      ensures |cr.log| == |old(cr.log)| + 1 && cr.log[..|old(cr.log)|] == old(cr.log)
      ensures var call := cr.log[|old(cr.log)|];
        && call.BulkInsertCall? && call.uri == StoryContentUri && call.inserted == n
        && |call.values| == |data|
        && forall i :: 0 <= i < |data| ==> call.values[i] == data[i].GetCV()
    {
      var values := new ContentValues[|data|];
      var index := 0;
      while index < |data|
        modifies values
        invariant 0 <= index <= |data|
        invariant forall i :: 0 <= i < index ==> values[i] == data[i].GetCV()
      {
        values[index] := data[index].GetCV();
        index := index + 1;
      }
      n := cr.BulkInsert(storyURI, values);
    }

    /** `bulkInsertTags`, as `BulkInsertStory`. */
    method BulkInsertTags(data: seq<TagsData>) returns (n: Int)
      modifies cr
      ensures |cr.log| == |old(cr.log)| + 1 && cr.log[..|old(cr.log)|] == old(cr.log)
      ensures var call := cr.log[|old(cr.log)|];
        && call.BulkInsertCall? && call.uri == TagsContentUri && call.inserted == n
        && |call.values| == |data|
        && forall i :: 0 <= i < |data| ==> call.values[i] == data[i].GetCV()
    {
      var values := new ContentValues[|data|];
      var index := 0;
      while index < |data|
        modifies values
        invariant 0 <= index <= |data|
        invariant forall i :: 0 <= i < index ==> values[i] == data[i].GetCV()
      {
        values[index] := data[index].GetCV();
        index := index + 1;
      }
      n := cr.BulkInsert(tagsURI, values);
    }

    /** `deleteStoryData`: the selection and its arguments are passed on as given. */
    method DeleteStoryData(selection: Option<Selection>, selectionArgs: Option<seq<JString>>)
      returns (n: Int)
      modifies cr
      ensures cr.log == old(cr.log) + [DeleteCall(StoryContentUri, selection, selectionArgs, n)]
    {
      n := cr.Delete(storyURI, selection, selectionArgs);
    }

    /** `deleteTagsData`: the selection and its arguments are passed on as given. */
    method DeleteTagsData(selection: Option<Selection>, selectionArgs: Option<seq<JString>>)
      returns (n: Int)
      modifies cr
      ensures cr.log == old(cr.log) + [DeleteCall(TagsContentUri, selection, selectionArgs, n)]
    {
      n := cr.Delete(tagsURI, selection, selectionArgs);
    }

    /**
     * `insert(StoryData)`: the record's row with the id key removed. The row
     * never holds the id, so what is submitted is exactly `getCV()`.
     */
    method InsertStory(storyObject: StoryData) returns (created: Option<Uri>)
      modifies cr
      ensures cr.log == old(cr.log) + [InsertCall(StoryContentUri, storyObject.GetCV(), created)]
    {
      var tempCV := storyObject.GetCV();
      tempCV := tempCV - {ID};
      assert tempCV == storyObject.GetCV();
      created := cr.Insert(storyURI, tempCV);
    }

    /** `insert(TagsData)`, as `InsertStory`. */
    method InsertTags(tagsObject: TagsData) returns (created: Option<Uri>)
      modifies cr
      ensures cr.log == old(cr.log) + [InsertCall(TagsContentUri, tagsObject.GetCV(), created)]
    {
      var tempCV := tagsObject.GetCV();
      tempCV := tempCV - {ID};
      assert tempCV == tagsObject.GetCV();
      created := cr.Insert(tagsURI, tempCV);
    }

    /**
     * `queryStoryData`: one query with the arguments as given, then the
     * cursor's records, the cursor closed once after the conversion.
     */
    method QueryStoryData(projection: Option<seq<JString>>, selection: Option<Selection>,
                          selectionArgs: Option<seq<JString>>, sortOrder: JString)
      returns (r: Result<seq<StoryData>>)
      modifies cr
      ensures |cr.log| == |old(cr.log)| + 1 && cr.log[..|old(cr.log)|] == old(cr.log)
      ensures var call := cr.log[|old(cr.log)|];
        && call.QueryCall? && call == QueryCall(StoryContentUri, projection, selection, selectionArgs, sortOrder, call.result)
        && StoryQueryOutcome(call.result, r)
      ensures r.Success? ==> forall i :: 0 <= i < |r.value| ==> fresh(r.value[i])
    {
      var result := cr.Query(storyURI, projection, selection, selectionArgs, sortOrder);
      var rValue := GetStoryDataArrayListFromCursor(result);
      if rValue.Failure? {
        // the converter's exception escapes before `result.close()` is reached
        r := Failure(rValue.error);
        return;
      }
      if result == null {
        r := Failure(NullPointerException);
        return;
      }
      result.Close();
      r := Success(rValue.value);
    }

    /** `queryTagsData`, as `QueryStoryData`. */
    method QueryTagsData(projection: Option<seq<JString>>, selection: Option<Selection>,
                         selectionArgs: Option<seq<JString>>, sortOrder: JString)
      returns (r: Result<seq<TagsData>>)
      modifies cr
      ensures |cr.log| == |old(cr.log)| + 1 && cr.log[..|old(cr.log)|] == old(cr.log)
      ensures var call := cr.log[|old(cr.log)|];
        && call.QueryCall? && call == QueryCall(TagsContentUri, projection, selection, selectionArgs, sortOrder, call.result)
        && TagsQueryOutcome(call.result, r)
      ensures r.Success? ==> forall i :: 0 <= i < |r.value| ==> fresh(r.value[i])
    {
      var result := cr.Query(tagsURI, projection, selection, selectionArgs, sortOrder);
      var rValue := GetTagsDataArrayListFromCursor(result);
      if rValue.Failure? {
        // the converter's exception escapes before `result.close()` is reached
        r := Failure(rValue.error);
        return;
      }
      if result == null {
        r := Failure(NullPointerException);
        return;
      }
      result.Close();
      r := Success(rValue.value);
    }

    /** `updateStoryData`: the record's row, with the selection as given. */
    method UpdateStoryData(values: StoryData, selection: Option<Selection>,
                           selectionArgs: Option<seq<JString>>) returns (n: Int)
      modifies cr
      ensures cr.log == old(cr.log) + [UpdateCall(StoryContentUri, values.GetCV(), selection, selectionArgs, n)]
    {
      n := cr.Update(storyURI, values.GetCV(), selection, selectionArgs);
    }

    /** `updateTagsData`: the record's row, with the selection as given. */
    method UpdateTagsData(values: TagsData, selection: Option<Selection>,
                          selectionArgs: Option<seq<JString>>) returns (n: Int)
      modifies cr
      ensures cr.log == old(cr.log) + [UpdateCall(TagsContentUri, values.GetCV(), selection, selectionArgs, n)]
    {
      n := cr.Update(tagsURI, values.GetCV(), selection, selectionArgs);
    }

    /** `getAllStoryData`: the query with every argument null. */
    method GetAllStoryData() returns (r: Result<seq<StoryData>>)
      modifies cr
      ensures |cr.log| == |old(cr.log)| + 1 && cr.log[..|old(cr.log)|] == old(cr.log)
      ensures var call := cr.log[|old(cr.log)|];
        && call.QueryCall? && call == QueryCall(StoryContentUri, None, None, None, None, call.result)
        && StoryQueryOutcome(call.result, r)
      ensures r.Success? ==> forall i :: 0 <= i < |r.value| ==> fresh(r.value[i])
    {
      r := QueryStoryData(None, None, None, None);
    }

    /** `getAllTagsData`: the query with every argument null. */
    method GetAllTagsData() returns (r: Result<seq<TagsData>>)
      modifies cr
      ensures |cr.log| == |old(cr.log)| + 1 && cr.log[..|old(cr.log)|] == old(cr.log)
      ensures var call := cr.log[|old(cr.log)|];
        && call.QueryCall? && call == QueryCall(TagsContentUri, None, None, None, None, call.result)
        && TagsQueryOutcome(call.result, r)
      ensures r.Success? ==> forall i :: 0 <= i < |r.value| ==> fresh(r.value[i])
    {
      r := QueryTagsData(None, None, None, None);
    }

    /**
     * `getStoryDataViaRowID`: a query on the id column with the id as its
     * one argument; the first record found, or `None` (null) when none is.
     */
    method GetStoryDataViaRowID(rowID: Long) returns (r: Result<Option<StoryData>>)
      modifies cr
      ensures |cr.log| == |old(cr.log)| + 1 && cr.log[..|old(cr.log)|] == old(cr.log)
      ensures var call := cr.log[|old(cr.log)|];
        && call.QueryCall? && call == QueryCall(StoryContentUri, None, Some(ColumnAndText(ID, "= ?")), RowIdArgs(rowID), None, call.result)
        && exists q :: StoryQueryOutcome(call.result, q) && FirstOf(q, r)
      ensures r.Success? && r.value.Some? ==> fresh(r.value.value)
    {
      var results := QueryStoryData(None, Some(ColumnAndText(ID, "= ?")), RowIdArgs(rowID), None);
      if results.Failure? {
        r := Failure(results.error);
      } else if |results.value| > 0 {
        r := Success(Some(results.value[0]));
      } else {
        r := Success(None);
      }
    }

    /** `getTagsDataViaRowID`, as `GetStoryDataViaRowID`. */
    method GetTagsDataViaRowID(rowID: Long) returns (r: Result<Option<TagsData>>)
      modifies cr
      ensures |cr.log| == |old(cr.log)| + 1 && cr.log[..|old(cr.log)|] == old(cr.log)
      ensures var call := cr.log[|old(cr.log)|];
        && call.QueryCall? && call == QueryCall(TagsContentUri, None, Some(ColumnAndText(ID, "= ?")), RowIdArgs(rowID), None, call.result)
        && exists q :: TagsQueryOutcome(call.result, q) && FirstOf(q, r)
      ensures r.Success? && r.value.Some? ==> fresh(r.value.value)
    {
      var results := QueryTagsData(None, Some(ColumnAndText(ID, "= ?")), RowIdArgs(rowID), None);
      if results.Failure? {
        r := Failure(results.error);
      } else if |results.value| > 0 {
        r := Success(Some(results.value[0]));
      } else {
        r := Success(None);
      }
    }

    /** `deleteAllStoryWithRowID`: a delete on the id column with the id as its one argument. */
    method DeleteAllStoryWithRowID(rowID: Long) returns (n: Int)
      modifies cr
      ensures cr.log == old(cr.log) + [DeleteCall(StoryContentUri, Some(ColumnAndText(ID, " = ? ")), RowIdArgs(rowID), n)]
    {
      n := DeleteStoryData(Some(ColumnAndText(ID, " = ? ")), RowIdArgs(rowID));
    }

    /** `deleteAllTagsWithRowID`: a delete on the id column with the id as its one argument. */
    method DeleteAllTagsWithRowID(rowID: Long) returns (n: Int)
      modifies cr
      ensures cr.log == old(cr.log) + [DeleteCall(TagsContentUri, Some(ColumnAndText(ID, " = ? ")), RowIdArgs(rowID), n)]
    {
      n := DeleteTagsData(Some(ColumnAndText(ID, " = ? ")), RowIdArgs(rowID));
    }

    /**
     * `updateStoryWithID`: the record's row, filtered on the literal
     * `"_id = ?"` with the record's own id as the one argument.
     */
    method UpdateStoryWithID(data: StoryData) returns (n: Int)
      modifies cr
      ensures cr.log == old(cr.log) +
        [UpdateCall(StoryContentUri, data.GetCV(), Some(Literal("_id = ?")), RowIdArgs(data.KEY_ID), n)]
    {
      n := UpdateStoryData(data, Some(Literal("_id = ?")), RowIdArgs(data.KEY_ID));
    }

    /** `updateTagsWithID`, as `UpdateStoryWithID`. */
    method UpdateTagsWithID(data: TagsData) returns (n: Int)
      modifies cr
      ensures cr.log == old(cr.log) +
        [UpdateCall(TagsContentUri, data.GetCV(), Some(Literal("_id = ?")), RowIdArgs(data.KEY_ID), n)]
    {
      n := UpdateTagsData(data, Some(Literal("_id = ?")), RowIdArgs(data.KEY_ID));
    }
  }
}
