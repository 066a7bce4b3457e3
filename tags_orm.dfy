/**
 * The Tags record (`TagsData`) and its converters (`TagsCreator`), laid out
 * like the Story module: `Tags` is the value of a `TagsData`'s fields at one
 * moment, and the converters are stated over it.
 */
module TagsOrm {
  import opened JavaLang
  import opened MoocSchema
  import opened Android

  /** The fields of a TagsData, in declaration order. */
  datatype Tags = Tags(KEY_ID: Long, loginId: Long, storyId: Long, tag: JString)

  /** The id of a record that has not been stored yet. */
  const UNSAVED_ID: Long := -1

  // ---------------------------------------------------------------------
  // TagsCreator: record <-> row
  // ---------------------------------------------------------------------

  /** A result row the converter can read: it has every Tags column. */
  predicate HasTagsColumns(row: Row) {
    TAGS_COLUMNS <= row.Keys
  }

  predicate AllHaveTagsColumns(rows: seq<Row>) {
    forall i :: 0 <= i < |rows| ==> HasTagsColumns(rows[i])
  }

  /** A row as `getCVfromTags` writes them: every Tags column, each holding a value of its own kind. */
  predicate IsTagsRow(row: Row) {
    HasLong(row, ID) && HasLong(row, LOGIN_ID) && HasLong(row, STORY_ID) && HasString(row, TAG)
  }

  /**
   * `getCVfromTags`: the row holding exactly the fields other than the id,
   * each under its own column.
   */
  function GetCVfromTags(t: Tags): (cv: ContentValues)
    ensures cv.Keys == TAGS_FIELD_COLUMNS && ID !in cv
  {
    map[
      LOGIN_ID := LongValue(t.loginId),
      STORY_ID := LongValue(t.storyId),
      TAG := StringValue(t.tag)]
  }

  /**
   * The column reads of `getTagsDataFromCursor` on one row, each with the
   * getter the source uses, so a cell of another kind is converted as the
   * cursor's getters convert it.
   */
  function TagsFromRow(g: Getters, row: Row): Tags
    requires HasTagsColumns(row)
  {
    Tags(g.getLong(row[ID]), g.getLong(row[LOGIN_ID]), g.getLong(row[STORY_ID]),
         g.getString(row[TAG]))
  }

  /**
   * The round trip record -> row -> record: adding the id back to the
   * record's row gives a row that reads as the same record, a null tag
   * included, by any getters that behave as Android's.
   */
  lemma TagsToRowToTags(g: Getters, t: Tags)
    requires AndroidGetters(g)
    ensures IsTagsRow(GetCVfromTags(t)[ID := LongValue(t.KEY_ID)])
    ensures TagsFromRow(g, GetCVfromTags(t)[ID := LongValue(t.KEY_ID)]) == t
  {
  }

  /**
   * The other direction of the round trip: reading a row and converting the
   * record back gives the row's id and the row's value in every field column,
   * for a row whose values have the kinds `getCVfromTags` writes.
   */
  lemma RowToTagsToRow(g: Getters, row: Row)
    requires AndroidGetters(g)
    requires IsTagsRow(row)
    ensures row[ID] == LongValue(TagsFromRow(g, row).KEY_ID)
    ensures forall c :: c in TAGS_FIELD_COLUMNS ==> GetCVfromTags(TagsFromRow(g, row))[c] == row[c]
  {
  }

  /**
   * `getTagsDataFromCursor`: a new record holding the current row's values;
   * when the row lacks a Tags column, the read of that column throws.
   */
  method GetTagsDataFromCursor(cursor: Cursor) returns (r: Result<TagsData>)
    requires cursor.OnRow()
    ensures r.Success? <==> HasTagsColumns(cursor.rows[cursor.position])
    ensures r.Failure? ==> r.error == IllegalStateException
    ensures r.Success? ==> fresh(r.value) && r.value.Value() == TagsFromRow(cursor.getters, cursor.rows[cursor.position])
  {
    if !HasTagsColumns(cursor.rows[cursor.position]) {
      // `getColumnIndex` gives -1 for the missing column, and reading column -1 throws
      return Failure(IllegalStateException);
    }
    var rowID := cursor.GetLong(ID);
    var loginId := cursor.GetLong(LOGIN_ID);
    var storyId := cursor.GetLong(STORY_ID);
    var tag := cursor.GetString(TAG);
    var d := new TagsData.WithId(rowID, loginId, storyId, tag);
    r := Success(d);
  }

  /**
   * `getTagsDataArrayListFromCursor`: one new record per row, in row order;
   * an empty list for a null cursor or a cursor without rows. The cursor is
   * left after its last row. The first row lacking a Tags column stops the
   * loop with the exception its read throws, the cursor still open.
   */
  method GetTagsDataArrayListFromCursor(cursor: Cursor?) returns (r: Result<seq<TagsData>>)
    requires cursor != null ==> !cursor.closed
    modifies cursor
    ensures cursor == null ==> r == Success([])
    ensures cursor != null ==> !cursor.closed && cursor.closeCount == old(cursor.closeCount)
    ensures cursor != null ==> (r.Success? <==> AllHaveTagsColumns(cursor.rows))
    ensures r.Failure? ==> r.error == IllegalStateException
    ensures cursor != null && r.Success? ==>
      && |r.value| == |cursor.rows| && cursor.position == |cursor.rows|
      && forall i :: 0 <= i < |r.value| ==> r.value[i].Value() == TagsFromRow(cursor.getters, cursor.rows[i])
    ensures r.Success? ==> forall i :: 0 <= i < |r.value| ==> fresh(r.value[i])
    ensures r.Success? ==> forall i, j :: 0 <= i < j < |r.value| ==> r.value[i] != r.value[j]
  {
    var list: seq<TagsData> := [];
    if cursor != null {
      var more := cursor.MoveToFirst();
      if more {
        while more
          invariant !cursor.closed && cursor.closeCount == old(cursor.closeCount)
          invariant more ==> cursor.position == |list| < |cursor.rows|
          invariant !more ==> cursor.position == |list| == |cursor.rows|
          invariant forall i :: 0 <= i < |list| ==>
            && HasTagsColumns(cursor.rows[i]) && fresh(list[i])
            && list[i].Value() == TagsFromRow(cursor.getters, cursor.rows[i])
          invariant forall i, j :: 0 <= i < j < |list| ==> list[i] != list[j]
          decreases |cursor.rows| - |list|, more
        {
          var d := GetTagsDataFromCursor(cursor);
          if d.Failure? {
            assert !HasTagsColumns(cursor.rows[|list|]);
            r := Failure(d.error);
            return;
          }
          assert forall i :: 0 <= i < |list| ==> list[i] != d.value;
          list := list + [d.value];
          more := cursor.MoveToNext();
        }
      }
    }
    assert cursor != null ==> AllHaveTagsColumns(cursor.rows);
    r := Success(list);
  }

  // ---------------------------------------------------------------------
  // TagsData: parcel encoding
  // ---------------------------------------------------------------------

  /** The number of values `writeToParcel` writes. */
  const TAGS_PARCEL_SIZE: nat := 4

  /** The values `writeToParcel` writes, in order. */
  function EncodeTags(t: Tags): (items: seq<ParcelItem>)
    ensures |items| == TAGS_PARCEL_SIZE
    ensures DecodeTags(items, 0) == Some(t)
  {
    [LongItem(t.KEY_ID)] + [LongItem(t.loginId)] + [LongItem(t.storyId)] + [StringItem(t.tag)]
  }

  /** The items from `at` on have the kinds the parcel constructor reads, in its order. */
  predicate TagsAt(items: seq<ParcelItem>, at: nat) {
    && at + TAGS_PARCEL_SIZE <= |items|
    && items[at].LongItem? && items[at + 1].LongItem? && items[at + 2].LongItem?
    && items[at + 3].StringItem?
  }

  /**
   * What the private `TagsData(Parcel)` constructor reads from data
   * position `at`; `None` when the items there are not a Tags'.
   */
  function DecodeTags(items: seq<ParcelItem>, at: nat): (r: Option<Tags>)
    ensures r.Some? <==> TagsAt(items, at)
  {
    if TagsAt(items, at) then
      Some(Tags(items[at].l, items[at + 1].l, items[at + 2].l, items[at + 3].s))
    else None
  }

  /**
   * The parcel round trip: whatever the parcel held, reading from the
   * position where the record was written gives the record back, id included.
   */
  lemma DecodeOverwrittenTags(items: seq<ParcelItem>, at: nat, t: Tags)
    requires at <= |items|
    ensures DecodeTags(Overwrite(items, at, EncodeTags(t)), at) == Some(t)
  {
  }

  /** Decoding succeeds only on exactly the items that encode the decoded record. */
  lemma DecodedTagsIsEncoded(items: seq<ParcelItem>, at: nat)
    requires DecodeTags(items, at).Some?
    ensures items[at..at + TAGS_PARCEL_SIZE] == EncodeTags(DecodeTags(items, at).value)
  {
  }

  // ---------------------------------------------------------------------
  // TagsData: the text rendering
  // ---------------------------------------------------------------------

  /**
   * `toString`: the two ids and the tag; the record's own id is not shown.
   * (Concatenation is associative; the pieces are grouped from the right.)
   */
  function TagsText(t: Tags): string {
    " loginId: " + (LongToString(t.loginId) + (" storyId: " + (LongToString(t.storyId)
    + (" tag: " + StringOf(t.tag)))))
  }

  /**
   * Two records render alike exactly when they agree on both ids and on the
   * tag's text; in particular the text never depends on `KEY_ID`.
   */
  lemma TagsTextDetermines(a: Tags, b: Tags)
    ensures TagsText(a) == TagsText(b) <==>
      a.loginId == b.loginId && a.storyId == b.storyId && StringOf(a.tag) == StringOf(b.tag)
  {
    LongToStringInjective(a.loginId, b.loginId);
    LongToStringInjective(a.storyId, b.storyId);
    if TagsText(a) == TagsText(b) {
      var la, lb := LongToString(a.loginId), LongToString(b.loginId);
      var sa, sb := LongToString(a.storyId), LongToString(b.storyId);
      var ta, tb := " tag: " + StringOf(a.tag), " tag: " + StringOf(b.tag);
      var ra, rb := " storyId: " + (sa + ta), " storyId: " + (sb + tb);
      CancelPrefix(" loginId: ", la + ra, lb + rb);
      SplitAtSpace(la, ra, lb, rb);
      CancelPrefix(" storyId: ", sa + ta, sb + tb);
      SplitAtSpace(sa, ta, sb, tb);
      CancelPrefix(" tag: ", StringOf(a.tag), StringOf(b.tag));
    }
  }

  /**
   * A null tag and the tag `"null"` render alike: `toString` cannot tell
   * these two different records apart.
   */
  lemma NullTagRendersAsNullText(t: Tags)
    ensures t.(tag := None) != t.(tag := Some("null"))
    ensures TagsText(t.(tag := None)) == TagsText(t.(tag := Some("null")))
  {
  }

  // ---------------------------------------------------------------------
  // TagsData: the record object
  // ---------------------------------------------------------------------

  class TagsData {
    const KEY_ID: Long
    var loginId: Long
    var storyId: Long
    var tag: JString

    /** The current values of the fields. */
    function Value(): Tags
      reads this
    {
      Tags(KEY_ID, loginId, storyId, tag)
    }

    /** The constructor without an id, for a record about to be inserted. */
    constructor (loginId: Long, storyId: Long, tag: JString)
      ensures Value() == Tags(UNSAVED_ID, loginId, storyId, tag)
    {
      KEY_ID := UNSAVED_ID;
      this.loginId := loginId;
      this.storyId := storyId;
      this.tag := tag;
    }

    /** The constructor with an id, for a record read back from the provider. */
    constructor WithId(KEY_ID: Long, loginId: Long, storyId: Long, tag: JString)
      ensures Value() == Tags(KEY_ID, loginId, storyId, tag)
    {
      this.KEY_ID := KEY_ID;
      this.loginId := loginId;
      this.storyId := storyId;
      this.tag := tag;
    }

    /** The private parcel constructor: reads the fields in the order they were written. */
    constructor FromParcel(source: Parcel)
      requires DecodeTags(source.items, source.position).Some?
      modifies source`position
      ensures Value() == DecodeTags(source.items, old(source.position)).value
      ensures source.position == old(source.position) + TAGS_PARCEL_SIZE
    {
      var id := source.ReadLong();
      var l := source.ReadLong();
      var si := source.ReadLong();
      var t := source.ReadString();
      KEY_ID := id;
      loginId, storyId, tag := l, si, t;
    }

    /** `toString`, as `TagsText` renders the current fields. */
    function ToString(): (text: string)
      reads this
      ensures text == TagsText(Value())
    {
      TagsText(Value())
    }

    /** `getCV`: the record's row for the provider, as `getCVfromTags` builds it from the current fields. */
    function GetCV(): (cv: ContentValues)
      reads this
      ensures cv == GetCVfromTags(Value())
    {
      GetCVfromTags(Value())
    }

    /** `clone`: a new record with every field copied and the id reset to the sentinel. */
    method Clone() returns (c: TagsData)
      ensures fresh(c) && c.Value() == Value().(KEY_ID := UNSAVED_ID)
    {
      c := new TagsData(loginId, storyId, tag);
    }

    /** `describeContents`: no special objects (file descriptors) in the parcel. */
    function DescribeContents(): (mask: Int)
      ensures mask == 0
    {
      0
    }

    /** `writeToParcel`: the four fields, id first, from the data position on. */
    method WriteToParcel(dest: Parcel, flags: Int)
      requires dest.Valid()
      modifies dest
      ensures dest.Valid()
      ensures dest.items == Overwrite(old(dest.items), old(dest.position), EncodeTags(Value()))
      ensures dest.position == old(dest.position) + TAGS_PARCEL_SIZE
      ensures Value() == old(Value())
    {
      ghost var before, at := dest.items, dest.position;
      // `written` is what the writes so far have put down from `at` on
      dest.WriteLong(KEY_ID);
      ghost var written: seq<ParcelItem> := [LongItem(KEY_ID)];
      dest.WriteLong(loginId);
      OverwriteConcat(before, at, written, [LongItem(loginId)]);
      written := written + [LongItem(loginId)];
      dest.WriteLong(storyId);
      OverwriteConcat(before, at, written, [LongItem(storyId)]);
      written := written + [LongItem(storyId)];
      dest.WriteString(tag);
      OverwriteConcat(before, at, written, [StringItem(tag)]);
      written := written + [StringItem(tag)];
    }
  }

  /** `CREATOR.createFromParcel`. */
  method CreateFromParcel(source: Parcel) returns (d: TagsData)
    requires DecodeTags(source.items, source.position).Some?
    modifies source`position
    ensures fresh(d)
    ensures d.Value() == DecodeTags(source.items, old(source.position)).value
    ensures source.position == old(source.position) + TAGS_PARCEL_SIZE
  {
    d := new TagsData.FromParcel(source);
  }

  /**
   * The Parcelable contract: writing a record, rewinding to where the write
   * began and creating from the parcel gives a new record equal to it.
   */
  method ParcelRoundTrip(d: TagsData, p: Parcel) returns (copy: TagsData)
    requires p.Valid()
    modifies p
    ensures fresh(copy) && copy != d && copy.Value() == d.Value()
  {
    var start := p.position;
    d.WriteToParcel(p, 0);
    p.SetDataPosition(start);
    DecodeOverwrittenTags(old(p.items), start, d.Value());
    copy := CreateFromParcel(p);
  }

  /** A clone is a separate object: writing to it leaves the original as it was. */
  method CloneIsIndependent(d: TagsData, newTag: JString) returns (c: TagsData)
    ensures fresh(c) && c.tag == newTag
    ensures c.Value() == d.Value().(KEY_ID := UNSAVED_ID, tag := newTag)
    ensures d.Value() == old(d.Value())
  {
    c := d.Clone();
    c.tag := newTag;
  }
}
