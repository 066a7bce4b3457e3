/**
 * The Story record (`StoryData`) and its converters (`StoryCreator`).
 * The two Java classes call each other (`getCV` delegates to
 * `getCVfromStory`, `getStoryDataFromCursor` builds a `StoryData`), so they
 * share one module. The converters are stated over `Story`, the values of a
 * `StoryData`'s fields at one moment.
 */
module StoryOrm {
  import opened JavaLang
  import opened MoocSchema
  import opened Android

  /** The fields of a StoryData, in declaration order. */
  datatype Story = Story(
    KEY_ID: Long,
    loginId: Long,
    storyId: Long,
    title: JString,
    body: JString,
    audioLink: JString,
    videoLink: JString,
    imageName: JString,
    imageLink: JString,
    tags: JString,
    creationTime: Long,
    storyTime: Long,
    latitude: Double,
    longitude: Double)

  /** The id of a record that has not been stored yet. */
  const UNSAVED_ID: Long := -1

  // ---------------------------------------------------------------------
  // StoryCreator: record <-> row
  // ---------------------------------------------------------------------

  /** A result row the converter can read: it has every Story column. */
  predicate HasStoryColumns(row: Row) {
    STORY_COLUMNS <= row.Keys
  }

  predicate AllHaveStoryColumns(rows: seq<Row>) {
    forall i :: 0 <= i < |rows| ==> HasStoryColumns(rows[i])
  }

  /** A row as `getCVfromStory` writes them: every Story column, each holding a value of its own kind. */
  predicate IsStoryRow(row: Row) {
    && HasLong(row, ID) && HasLong(row, LOGIN_ID) && HasLong(row, STORY_ID)
    && HasString(row, TITLE) && HasString(row, BODY) && HasString(row, AUDIO_LINK)
    && HasString(row, VIDEO_LINK) && HasString(row, IMAGE_NAME) && HasString(row, IMAGE_LINK)
    && HasString(row, TAGS)
    && HasLong(row, CREATION_TIME) && HasLong(row, STORY_TIME)
    && HasDouble(row, LATITUDE) && HasDouble(row, LONGITUDE)
  }

  /** A row of the kinds `getCVfromStory` writes has every Story column. */
  lemma StoryRowHasColumns(row: Row)
    requires IsStoryRow(row)
    ensures HasStoryColumns(row)
  {
  }

  /** The field of `s` that column `c` stores, as the `put` for `c` in `getCVfromStory` writes it. */
  function StoryColumnValue(s: Story, c: Column): Value
    requires c in STORY_COLUMNS
  {
    match c
    case ID => LongValue(s.KEY_ID)
    case LOGIN_ID => LongValue(s.loginId)
    case STORY_ID => LongValue(s.storyId)
    case TITLE => StringValue(s.title)
    case BODY => StringValue(s.body)
    case AUDIO_LINK => StringValue(s.audioLink)
    case VIDEO_LINK => StringValue(s.videoLink)
    case IMAGE_NAME => StringValue(s.imageName)
    case IMAGE_LINK => StringValue(s.imageLink)
    case TAGS => StringValue(s.tags)
    case CREATION_TIME => LongValue(s.creationTime)
    case STORY_TIME => LongValue(s.storyTime)
    case LATITUDE => DoubleValue(s.latitude)
    case LONGITUDE => DoubleValue(s.longitude)
    case TAG => assert false; StringValue(None)
  }

  /**
   * `getCVfromStory`: the row holding exactly the fields other than the id,
   * each under its own column.
   */
  function GetCVfromStory(s: Story): (cv: ContentValues)
    ensures cv.Keys == STORY_FIELD_COLUMNS && ID !in cv
  {
    map c | c in STORY_FIELD_COLUMNS :: StoryColumnValue(s, c)
  }

  /**
   * The column reads of `getStoryDataFromCursor` on one row, each with the
   * getter the source uses, so a cell of another kind is converted as the
   * cursor's getters convert it.
   */
  function StoryFromRow(g: Getters, row: Row): Story
    requires HasStoryColumns(row)
  {
    Story(
      g.getLong(row[ID]), g.getLong(row[LOGIN_ID]), g.getLong(row[STORY_ID]),
      g.getString(row[TITLE]), g.getString(row[BODY]),
      g.getString(row[AUDIO_LINK]), g.getString(row[VIDEO_LINK]),
      g.getString(row[IMAGE_NAME]), g.getString(row[IMAGE_LINK]),
      g.getString(row[TAGS]),
      g.getLong(row[CREATION_TIME]), g.getLong(row[STORY_TIME]),
      g.getDouble(row[LATITUDE]), g.getDouble(row[LONGITUDE]))
  }

  /**
   * On a row whose values have the kinds `getCVfromStory` writes, Android's
   * getters return the stored values themselves.
   */
  lemma ReadWellKindedStoryRow(g: Getters, row: Row)
    requires AndroidGetters(g)
    requires IsStoryRow(row)
    ensures StoryFromRow(g, row) == Story(
      row[ID].l, row[LOGIN_ID].l, row[STORY_ID].l,
      row[TITLE].s, row[BODY].s, row[AUDIO_LINK].s, row[VIDEO_LINK].s,
      row[IMAGE_NAME].s, row[IMAGE_LINK].s, row[TAGS].s,
      row[CREATION_TIME].l, row[STORY_TIME].l,
      row[LATITUDE].d, row[LONGITUDE].d)
  {
  }

  /**
   * The record's row plus its id holds every field under its column, with
   * the kind `getCVfromStory` writes.
   */
  lemma StoryRowHoldsFields(s: Story)
    ensures var row := GetCVfromStory(s)[ID := LongValue(s.KEY_ID)];
      && IsStoryRow(row)
      && s == Story(
        row[ID].l, row[LOGIN_ID].l, row[STORY_ID].l,
        row[TITLE].s, row[BODY].s, row[AUDIO_LINK].s, row[VIDEO_LINK].s,
        row[IMAGE_NAME].s, row[IMAGE_LINK].s, row[TAGS].s,
        row[CREATION_TIME].l, row[STORY_TIME].l,
        row[LATITUDE].d, row[LONGITUDE].d)
  {
    var cv := GetCVfromStory(s);
    assert cv[LOGIN_ID] == LongValue(s.loginId) && cv[STORY_ID] == LongValue(s.storyId);
    assert cv[TITLE] == StringValue(s.title) && cv[BODY] == StringValue(s.body);
    assert cv[AUDIO_LINK] == StringValue(s.audioLink) && cv[VIDEO_LINK] == StringValue(s.videoLink);
    assert cv[IMAGE_NAME] == StringValue(s.imageName) && cv[IMAGE_LINK] == StringValue(s.imageLink);
    assert cv[TAGS] == StringValue(s.tags);
    assert cv[CREATION_TIME] == LongValue(s.creationTime) && cv[STORY_TIME] == LongValue(s.storyTime);
    assert cv[LATITUDE] == DoubleValue(s.latitude) && cv[LONGITUDE] == DoubleValue(s.longitude);
  }

  /**
   * The round trip record -> row -> record: adding the id back to the
   * record's row gives a row that reads as the same record, null strings
   * included, by any getters that behave as Android's.
   */
  lemma StoryToRowToStory(g: Getters, s: Story)
    requires AndroidGetters(g)
    ensures IsStoryRow(GetCVfromStory(s)[ID := LongValue(s.KEY_ID)])
    ensures StoryFromRow(g, GetCVfromStory(s)[ID := LongValue(s.KEY_ID)]) == s
  {
    StoryRowHoldsFields(s);
    ReadWellKindedStoryRow(g, GetCVfromStory(s)[ID := LongValue(s.KEY_ID)]);
  }

  /**
   * The other direction of the round trip: reading a row and converting the
   * record back gives the row's id and the row's value in every field column,
   * for a row whose values have the kinds `getCVfromStory` writes.
   */
  lemma RowToStoryToRow(g: Getters, row: Row)
    requires AndroidGetters(g)
    requires IsStoryRow(row)
    ensures row[ID] == LongValue(StoryFromRow(g, row).KEY_ID)
    ensures forall c :: c in STORY_FIELD_COLUMNS ==> GetCVfromStory(StoryFromRow(g, row))[c] == row[c]
  {
    StoryRowHasColumns(row);
    ReadWellKindedStoryRow(g, row);
    var cv := GetCVfromStory(StoryFromRow(g, row));
    forall c | c in STORY_FIELD_COLUMNS
      ensures cv[c] == row[c]
    {
      match c
      case LOGIN_ID =>
      case STORY_ID =>
      case TITLE =>
      case BODY =>
      case AUDIO_LINK =>
      case VIDEO_LINK =>
      case IMAGE_NAME =>
      case IMAGE_LINK =>
      case TAGS =>
      case CREATION_TIME =>
      case STORY_TIME =>
      case LATITUDE =>
      case LONGITUDE =>
    }
  }

  /**
   * `getStoryDataFromCursor`: a new record holding the current row's values;
   * when the row lacks a Story column, the read of that column throws.
   */
  method GetStoryDataFromCursor(cursor: Cursor) returns (r: Result<StoryData>)
    requires cursor.OnRow()
    ensures r.Success? <==> HasStoryColumns(cursor.rows[cursor.position])
    ensures r.Failure? ==> r.error == IllegalStateException
    ensures r.Success? ==> fresh(r.value) && r.value.Value() == StoryFromRow(cursor.getters, cursor.rows[cursor.position])
  {
    if !HasStoryColumns(cursor.rows[cursor.position]) {
      // `getColumnIndex` gives -1 for the missing column, and reading column -1 throws
      return Failure(IllegalStateException);
    }
    var rowID := cursor.GetLong(ID);
    var loginId := cursor.GetLong(LOGIN_ID);
    var storyId := cursor.GetLong(STORY_ID);
    var title := cursor.GetString(TITLE);
    var body := cursor.GetString(BODY);
    var audioLink := cursor.GetString(AUDIO_LINK);
    var videoLink := cursor.GetString(VIDEO_LINK);
    var imageName := cursor.GetString(IMAGE_NAME);
    var imageMetaData := cursor.GetString(IMAGE_LINK);
    var tags := cursor.GetString(TAGS);
    var creationTime := cursor.GetLong(CREATION_TIME);
    var storyTime := cursor.GetLong(STORY_TIME);
    var latitude := cursor.GetDouble(LATITUDE);
    var longitude := cursor.GetDouble(LONGITUDE);
    var d := new StoryData.WithId(rowID, loginId, storyId, title, body,
                                  audioLink, videoLink, imageName, imageMetaData, tags,
                                  creationTime, storyTime, latitude, longitude);
    r := Success(d);
  }

  /**
   * `getStoryDataArrayListFromCursor`: one new record per row, in row order;
   * an empty list for a null cursor or a cursor without rows. The cursor is
   * left after its last row. The first row lacking a Story column stops the
   * loop with the exception its read throws, the cursor still open.
   */
  method GetStoryDataArrayListFromCursor(cursor: Cursor?) returns (r: Result<seq<StoryData>>)
    requires cursor != null ==> !cursor.closed
    modifies cursor
    ensures cursor == null ==> r == Success([])
    ensures cursor != null ==> !cursor.closed && cursor.closeCount == old(cursor.closeCount)
    ensures cursor != null ==> (r.Success? <==> AllHaveStoryColumns(cursor.rows))
    ensures r.Failure? ==> r.error == IllegalStateException
    ensures cursor != null && r.Success? ==>
      && |r.value| == |cursor.rows| && cursor.position == |cursor.rows|
      && forall i :: 0 <= i < |r.value| ==> r.value[i].Value() == StoryFromRow(cursor.getters, cursor.rows[i])
    ensures r.Success? ==> forall i :: 0 <= i < |r.value| ==> fresh(r.value[i])
    ensures r.Success? ==> forall i, j :: 0 <= i < j < |r.value| ==> r.value[i] != r.value[j]
  {
    var list: seq<StoryData> := [];
    if cursor != null {
      var more := cursor.MoveToFirst();
      if more {
        while more
          invariant !cursor.closed && cursor.closeCount == old(cursor.closeCount)
          invariant more ==> cursor.position == |list| < |cursor.rows|
          invariant !more ==> cursor.position == |list| == |cursor.rows|
          invariant forall i :: 0 <= i < |list| ==>
            && HasStoryColumns(cursor.rows[i]) && fresh(list[i])
            && list[i].Value() == StoryFromRow(cursor.getters, cursor.rows[i])
          invariant forall i, j :: 0 <= i < j < |list| ==> list[i] != list[j]
          decreases |cursor.rows| - |list|, more
        {
          var d := GetStoryDataFromCursor(cursor);
          if d.Failure? {
            assert !HasStoryColumns(cursor.rows[|list|]);
            r := Failure(d.error);
            return;
          }
          assert forall i :: 0 <= i < |list| ==> list[i] != d.value;
          list := list + [d.value];
          more := cursor.MoveToNext();
        }
      }
    }
    assert cursor != null ==> AllHaveStoryColumns(cursor.rows);
    r := Success(list);
  }

  // ---------------------------------------------------------------------
  // StoryData: parcel encoding
  // ---------------------------------------------------------------------

  /** The number of values `writeToParcel` writes. */
  const STORY_PARCEL_SIZE: nat := 14

  /** The values `writeToParcel` writes, in order. */
  function EncodeStory(s: Story): (items: seq<ParcelItem>)
    ensures |items| == STORY_PARCEL_SIZE
    ensures DecodeStory(items, 0) == Some(s)
  {
    // one write after another, in the order `writeToParcel` makes them
    [LongItem(s.KEY_ID)] + [LongItem(s.loginId)] + [LongItem(s.storyId)]
    + [StringItem(s.title)] + [StringItem(s.body)] + [StringItem(s.audioLink)]
    + [StringItem(s.videoLink)] + [StringItem(s.imageName)] + [StringItem(s.imageLink)]
    + [StringItem(s.tags)]
    + [LongItem(s.creationTime)] + [LongItem(s.storyTime)]
    + [DoubleItem(s.latitude)] + [DoubleItem(s.longitude)]
  }

  /** The items from `at` on have the kinds the parcel constructor reads, in its order. */
  predicate StoryAt(items: seq<ParcelItem>, at: nat) {
    && at + STORY_PARCEL_SIZE <= |items|
    && items[at].LongItem? && items[at + 1].LongItem? && items[at + 2].LongItem?
    && items[at + 3].StringItem? && items[at + 4].StringItem? && items[at + 5].StringItem?
    && items[at + 6].StringItem? && items[at + 7].StringItem? && items[at + 8].StringItem?
    && items[at + 9].StringItem?
    && items[at + 10].LongItem? && items[at + 11].LongItem?
    && items[at + 12].DoubleItem? && items[at + 13].DoubleItem?
  }

  /**
   * What the private `StoryData(Parcel)` constructor reads from data
   * position `at`; `None` when the items there are not a Story's.
   */
  function DecodeStory(items: seq<ParcelItem>, at: nat): (r: Option<Story>)
    ensures r.Some? <==> StoryAt(items, at)
  {
    if StoryAt(items, at) then
      Some(Story(
        items[at].l, items[at + 1].l, items[at + 2].l,
        items[at + 3].s, items[at + 4].s, items[at + 5].s, items[at + 6].s,
        items[at + 7].s, items[at + 8].s, items[at + 9].s,
        items[at + 10].l, items[at + 11].l,
        items[at + 12].d, items[at + 13].d))
    else None
  }

  /**
   * The parcel round trip: whatever the parcel held, reading from the
   * position where the record was written gives the record back, id included.
   */
  lemma DecodeOverwrittenStory(items: seq<ParcelItem>, at: nat, s: Story)
    requires at <= |items|
    ensures DecodeStory(Overwrite(items, at, EncodeStory(s)), at) == Some(s)
  {
  }

  /** Decoding succeeds only on exactly the items that encode the decoded record. */
  lemma DecodedStoryIsEncoded(items: seq<ParcelItem>, at: nat)
    requires DecodeStory(items, at).Some?
    ensures items[at..at + STORY_PARCEL_SIZE] == EncodeStory(DecodeStory(items, at).value)
  {
  }

  // ---------------------------------------------------------------------
  // StoryData: the record object
  // ---------------------------------------------------------------------

  class StoryData {
    const KEY_ID: Long
    var loginId: Long
    var storyId: Long
    var title: JString
    var body: JString
    var audioLink: JString
    var videoLink: JString
    var imageName: JString
    var imageLink: JString
    var tags: JString
    var creationTime: Long
    var storyTime: Long
    var latitude: Double
    var longitude: Double

    /** The current values of the fields. */
    function Value(): Story
      reads this
    {
      Story(KEY_ID, loginId, storyId, title, body, audioLink, videoLink,
            imageName, imageLink, tags, creationTime, storyTime, latitude, longitude)
    }

    /**
     * The constructor without an id, for a record about to be inserted. Its
     * eighth argument, `imageMetaData`, becomes the `imageLink` field.
     */
    constructor (loginId: Long, storyId: Long, title: JString, body: JString,
                 audioLink: JString, videoLink: JString, imageName: JString,
                 imageMetaData: JString, tags: JString, creationTime: Long,
                 storyTime: Long, latitude: Double, longitude: Double)
      ensures Value() == Story(UNSAVED_ID, loginId, storyId, title, body, audioLink,
                               videoLink, imageName, imageMetaData, tags,
                               creationTime, storyTime, latitude, longitude)
    {
      KEY_ID := UNSAVED_ID;
      this.loginId := loginId;
      this.storyId := storyId;
      this.title := title;
      this.body := body;
      this.audioLink := audioLink;
      this.videoLink := videoLink;
      this.imageName := imageName;
      this.imageLink := imageMetaData;
      this.tags := tags;
      this.creationTime := creationTime;
      this.storyTime := storyTime;
      this.latitude := latitude;
      this.longitude := longitude;
    }

    /** The constructor with an id, for a record read back from the provider. */
    constructor WithId(KEY_ID: Long, loginId: Long, storyId: Long, title: JString,
                       body: JString, audioLink: JString, videoLink: JString,
                       imageName: JString, imageLink: JString, tags: JString,
                       creationTime: Long, storyTime: Long, latitude: Double,
                       longitude: Double)
      ensures Value() == Story(KEY_ID, loginId, storyId, title, body, audioLink,
                               videoLink, imageName, imageLink, tags,
                               creationTime, storyTime, latitude, longitude)
    {
      this.KEY_ID := KEY_ID;
      this.loginId := loginId;
      this.storyId := storyId;
      this.title := title;
      this.body := body;
      this.audioLink := audioLink;
      this.videoLink := videoLink;
      this.imageName := imageName;
      this.imageLink := imageLink;
      this.tags := tags;
      this.creationTime := creationTime;
      this.storyTime := storyTime;
      this.latitude := latitude;
      this.longitude := longitude;
    }

    /** The private parcel constructor: reads the fields in the order they were written. */
    constructor FromParcel(source: Parcel)
      requires DecodeStory(source.items, source.position).Some?
      modifies source`position
      ensures Value() == DecodeStory(source.items, old(source.position)).value
      ensures source.position == old(source.position) + STORY_PARCEL_SIZE
    {
      var id := source.ReadLong();
      var l := source.ReadLong();
      var si := source.ReadLong();
      var t := source.ReadString();
      var b := source.ReadString();
      var al := source.ReadString();
      var vl := source.ReadString();
      var nm := source.ReadString();
      var il := source.ReadString();
      var tg := source.ReadString();
      var ct := source.ReadLong();
      var st := source.ReadLong();
      var la := source.ReadDouble();
      var lo := source.ReadDouble();
      KEY_ID := id;
      loginId, storyId := l, si;
      title, body, audioLink, videoLink := t, b, al, vl;
      imageName, imageLink, tags := nm, il, tg;
      creationTime, storyTime := ct, st;
      latitude, longitude := la, lo;
    }

    /** `getCV`: the record's row for the provider, as `getCVfromStory` builds it from the current fields. */
    function GetCV(): (cv: ContentValues)
      reads this
      ensures cv == GetCVfromStory(Value())
    {
      GetCVfromStory(Value())
    }

    /** `clone`: a new record with every field copied and the id reset to the sentinel. */
    method Clone() returns (c: StoryData)
      ensures fresh(c)
      ensures c.Value() == Value().(KEY_ID := UNSAVED_ID)
    {
      c := new StoryData(loginId, storyId, title, body, audioLink, videoLink,
                         imageName, imageLink, tags, creationTime, storyTime,
                         latitude, longitude);
    }

    /** `describeContents`: no special objects (file descriptors) in the parcel. */
    function DescribeContents(): (mask: Int)
      ensures mask == 0
    {
      0
    }

    /** `writeToParcel`: the 14 fields written from the data position on; `flags` is unused. */
    method WriteToParcel(dest: Parcel, flags: Int)
      requires dest.Valid()
      modifies dest
      ensures dest.Valid()
      ensures dest.items == Overwrite(old(dest.items), old(dest.position), EncodeStory(Value()))
      ensures dest.position == old(dest.position) + STORY_PARCEL_SIZE
      ensures Value() == old(Value())
    {
      ghost var before, at := dest.items, dest.position;
      // `written` is what the writes so far have put down from `at` on
      dest.WriteLong(KEY_ID);
      ghost var written: seq<ParcelItem> := [LongItem(KEY_ID)];
      dest.WriteLong(loginId);
      OverwriteConcat(before, at, written, [LongItem(loginId)]);
      written := written + [LongItem(loginId)];
      dest.WriteLong(storyId);
      OverwriteConcat(before, at, written, [LongItem(storyId)]);
      written := written + [LongItem(storyId)];
      dest.WriteString(title);
      OverwriteConcat(before, at, written, [StringItem(title)]);
      written := written + [StringItem(title)];
      dest.WriteString(body);
      OverwriteConcat(before, at, written, [StringItem(body)]);
      written := written + [StringItem(body)];
      dest.WriteString(audioLink);
      OverwriteConcat(before, at, written, [StringItem(audioLink)]);
      written := written + [StringItem(audioLink)];
      dest.WriteString(videoLink);
      OverwriteConcat(before, at, written, [StringItem(videoLink)]);
      written := written + [StringItem(videoLink)];
      dest.WriteString(imageName);
      OverwriteConcat(before, at, written, [StringItem(imageName)]);
      written := written + [StringItem(imageName)];
      dest.WriteString(imageLink);
      OverwriteConcat(before, at, written, [StringItem(imageLink)]);
      written := written + [StringItem(imageLink)];
      dest.WriteString(tags);
      OverwriteConcat(before, at, written, [StringItem(tags)]);
      written := written + [StringItem(tags)];
      dest.WriteLong(creationTime);
      OverwriteConcat(before, at, written, [LongItem(creationTime)]);
      written := written + [LongItem(creationTime)];
      dest.WriteLong(storyTime);
      OverwriteConcat(before, at, written, [LongItem(storyTime)]);
      written := written + [LongItem(storyTime)];
      dest.WriteDouble(latitude);
      OverwriteConcat(before, at, written, [DoubleItem(latitude)]);
      written := written + [DoubleItem(latitude)];
      dest.WriteDouble(longitude);
      OverwriteConcat(before, at, written, [DoubleItem(longitude)]);
      written := written + [DoubleItem(longitude)];
    }
  }

  /** `CREATOR.createFromParcel`. */
  method CreateFromParcel(source: Parcel) returns (d: StoryData)
    requires DecodeStory(source.items, source.position).Some?
    modifies source`position
    ensures fresh(d)
    ensures d.Value() == DecodeStory(source.items, old(source.position)).value
    ensures source.position == old(source.position) + STORY_PARCEL_SIZE
  {
    d := new StoryData.FromParcel(source);
  }

  /**
   * The Parcelable contract: writing a record, rewinding to where the write
   * began and creating from the parcel gives a new record equal to it.
   */
  method ParcelRoundTrip(d: StoryData, p: Parcel) returns (copy: StoryData)
    requires p.Valid()
    modifies p
    ensures fresh(copy) && copy != d && copy.Value() == d.Value()
  {
    var start := p.position;
    d.WriteToParcel(p, 0);
    p.SetDataPosition(start);
    DecodeOverwrittenStory(old(p.items), start, d.Value());
    copy := CreateFromParcel(p);
  }

  /** A clone is a separate object: writing to it leaves the original as it was. */
  method CloneIsIndependent(d: StoryData, newTitle: JString) returns (c: StoryData)
    ensures fresh(c) && c.title == newTitle
    ensures c.Value() == d.Value().(KEY_ID := UNSAVED_ID, title := newTitle)
    ensures d.Value() == old(d.Value())
  {
    c := d.Clone();
    c.title := newTitle;
  }
}
