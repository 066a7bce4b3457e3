# iremember ORM layer in Dafny

This project models the ORM layer of the iremember Android application, package
`edu.vuum.mocca.orm`:

- the two record types, `StoryData` and `TagsData`;
- their converters to and from provider rows, `StoryCreator` and `TagsCreator`;
- the facade `MoocResolver`, which wraps a `ContentResolver`.

It proves what the layer promises its callers:

- exact key sets of the rows it builds;
- field-by-field round trips between records and rows;
- order- and length-preserving conversion of a cursor into a list;
- a parcel encoding whose decoding gives the record back, id included;
- clones that reset the id and are independent objects;
- exactly what the facade passes to the resolver, and how it turns the replies into results. A queried record holds its row's own values wherever a cell has its column's kind.

Files and modules:

- `java_lang.dfy` (`JavaLang`). Java's `null`, `long`, `int`, `double`, `String`, the exceptions that can escape, and `String.valueOf(long)` with its inverse.
- `mooc_schema.dfy` (`MoocSchema`). The schema class's column names and content URIs. `MoocSchema` itself is not part of this model. Its column names are the constructors of `Column`, which states the assumption the converters rely on: the names are pairwise distinct, and `ID` differs from every field column.
- `android.dfy` (`Android`). The platform classes used:
  - `ContentValues` and cursor rows are maps from column to value. SQL NULL is a null string value.
  - `Cursor` is a class over a sequence of rows, with Android's `moveToFirst`/`moveToNext` position rules and `close`. Its `getLong`, `getString` and `getDouble` are functions of the stored value. `AndroidGetters` states what Android fixes about them:
    - a value of the getter's own kind comes back unchanged;
    - NULL reads as 0, null or 0.0;
    - a long read as a string gives its decimal text.
  - The other conversions (text parsed by `strtoll`/`strtod`, casts between long and double, `%g` formatting) are native code and are left open (`Conversions`).
  - `Parcel` is a class over a sequence of tagged values with one data position. A write writes at the position and advances it. A read takes the value at the position and advances it.
  - `ContentResolver` is a class whose store is not modelled. A reply can be any value of its type, with one exception: a returned cursor is new, open, before its first row, not closed before, and has Android's getters. A log field records each call with the reply it got. "Closed exactly once" in the query contracts rests on that guarantee about the cursor.
- `story_orm.dfy` (`StoryOrm`) models `StoryData.java` and `StoryCreator.java`. `tags_orm.dfy` (`TagsOrm`) models `TagsData.java` and `TagsCreator.java`. Each record class and its converter class call each other, so they share a module. `Story` and `Tags` are the values of a record's fields at one moment (`Value()`).
- `mooc_resolver.dfy` (`MoocResolverFacade`) models `MoocResolver.java`.

Three things behave differently from what a reader might expect, and the model follows the code:

- `queryStoryData` and `queryTagsData` (MoocResolver.java:220-228) have no `finally`. When the converter throws because a row lacks a column, `result.close()` is never reached and the cursor is left open. `StoryQueryOutcome` and `TagsQueryOutcome` state this.
- A row that has every column but holds a value of another kind does not throw: the cursor's getters convert it (a NULL `LOGIN_ID` reads as 0), and the query succeeds.
- A null cursor from the resolver is accepted by the converter, which returns an empty list, but the following `result.close()` throws. The model returns `Failure(NullPointerException)`.

Smaller points:

- `getCV` is `getCVfromStory` (or `getCVfromTags`) applied to the record's current fields, which `GetCV`'s contract states. The properties themselves are stated on the converter functions.
- `updateStoryWithID` and `updateTagsWithID` filter on the literal text `"_id = ?"`. The other by-id methods use the schema constant `ID` followed by `"= ?"` or `" = ? "`. Selections built from a schema constant are kept symbolic (`ColumnAndText`), because the constants' values are not part of this model.

## Model

| member | source | states |
|---|---|---|
| JavaLang.StringOf | src/edu/vuum/mocca/orm/TagsData.java:69 | string concatenation renders a null `String` as `"null"` and any other string as itself |
| JavaLang.LongToString | src/edu/vuum/mocca/orm/MoocResolver.java:325 | `String.valueOf(long)` is non-empty, starts with `-` exactly for negative values, is otherwise decimal digits, and contains no space |
| JavaLang.ParseLongToString | src/edu/vuum/mocca/orm/MoocResolver.java:325 | reading the rendered id back as a number gives the id |
| JavaLang.LongToStringInjective | src/edu/vuum/mocca/orm/MoocResolver.java:325 | two ids render to the same text exactly when they are equal |
| Android.Cursor.MoveToFirst | src/edu/vuum/mocca/orm/StoryCreator.java:55 | `moveToFirst` succeeds exactly when the cursor has rows, and moves to position 0 |
| Android.Cursor.MoveToNext | src/edu/vuum/mocca/orm/StoryCreator.java:58 | `moveToNext` succeeds exactly when another row follows; otherwise the position ends after the last row |
| Android.PlatformGettersAreAndroid | src/edu/vuum/mocca/orm/StoryCreator.java:73-100 | the getters built from the cursor window's conversion rules (a value of the getter's own kind unchanged, NULL as 0, null or 0.0, a long as decimal text) meet `AndroidGetters`, whatever the native conversions are |
| Android.OverwriteShape | src/edu/vuum/mocca/orm/StoryData.java:164-179 | writing a block at a position puts it there, keeps every other value, and grows the parcel only as far as the block reaches |
| Android.OverwriteConcat | src/edu/vuum/mocca/orm/StoryData.java:164-179 | writing one block and then another right after it is the same as writing both at once, so consecutive parcel writes compose |
| Android.OverwriteAtEnd | src/edu/vuum/mocca/orm/StoryData.java:164-179 | written at the end of a parcel, the values are appended to it |
| StoryOrm.GetCVfromStory | src/edu/vuum/mocca/orm/StoryCreator.java:26-42 | the row's key set is exactly the 13 Story columns other than `ID`, so it never holds `ID` |
| StoryOrm.StoryRowHoldsFields | src/edu/vuum/mocca/orm/StoryCreator.java:26-42 | `getCVfromStory(d)` plus `ID = KEY_ID` holds every Story column, each with the kind it is written as, and each holds `d`'s own field |
| StoryOrm.ReadWellKindedStoryRow | src/edu/vuum/mocca/orm/StoryCreator.java:73-100 | on a row whose values have their columns' kinds, Android's getters read back exactly the stored values |
| StoryOrm.StoryToRowToStory | src/edu/vuum/mocca/orm/StoryCreator.java:26-107 | adding `ID = KEY_ID` to `getCVfromStory(d)` gives a row that has every Story column with a value of the right kind and reads back as `d` in every field, null strings included, under any getters meeting `AndroidGetters` |
| StoryOrm.RowToStoryToRow | src/edu/vuum/mocca/orm/StoryCreator.java:26-107 | reading a row whose values have their columns' kinds, then converting the record back, gives the row's `ID` as `KEY_ID` and the row's value in each of the 13 field columns |
| StoryOrm.GetStoryDataFromCursor | src/edu/vuum/mocca/orm/StoryCreator.java:71-108 | a row with every Story column gives a new record: `KEY_ID` is the row's `ID` as `getLong` reads it, and each other field is its column as its getter reads it, with `IMAGE_LINK` going to `imageLink`. A row lacking a column gives an illegal-state failure, and only such a row does |
| StoryOrm.GetStoryDataArrayListFromCursor | src/edu/vuum/mocca/orm/StoryCreator.java:51-62 | a null cursor gives the empty list. Otherwise the call fails with an illegal-state exception exactly when some row lacks a Story column. On success there is one new, distinct record per row, element i read from row i, and the cursor ends after its last row. The cursor stays open either way |
| StoryOrm.EncodeStory | src/edu/vuum/mocca/orm/StoryData.java:164-179 | `writeToParcel` writes exactly 14 values, and reading them from their start gives the record back |
| StoryOrm.DecodeStory | src/edu/vuum/mocca/orm/StoryData.java:197-212 | the parcel constructor's reads succeed exactly when the 14 values from the data position have the kinds read, in order |
| StoryOrm.DecodeOverwrittenStory | src/edu/vuum/mocca/orm/StoryData.java:164-212 | whatever the parcel held, reading from where a record was written reproduces it, `KEY_ID` included |
| StoryOrm.DecodedStoryIsEncoded | src/edu/vuum/mocca/orm/StoryData.java:197-212 | the 14 values a successful read consumes are exactly the encoding of the record it gives |
| StoryOrm.StoryData.constructor | src/edu/vuum/mocca/orm/StoryData.java:60-78 | `KEY_ID` is -1 and every argument is stored, `imageMetaData` in `imageLink` |
| StoryOrm.StoryData.GetCV | src/edu/vuum/mocca/orm/StoryData.java:138-140 | `getCV` is `getCVfromStory` of the record's current fields, so every property of the converter holds for it |
| StoryOrm.StoryData.WithId | src/edu/vuum/mocca/orm/StoryData.java:99-117 | the given `KEY_ID` and all 13 fields are stored unchanged |
| StoryOrm.StoryData.FromParcel | src/edu/vuum/mocca/orm/StoryData.java:197-212 | the private parcel constructor's record is the decoding at the data position, which advances by 14 |
| StoryOrm.StoryData.Clone | src/edu/vuum/mocca/orm/StoryData.java:145-149 | a new object with `KEY_ID` -1 and the other 13 fields equal to the original's |
| StoryOrm.StoryData.DescribeContents | src/edu/vuum/mocca/orm/StoryData.java:156-158 | returns 0 |
| StoryOrm.StoryData.WriteToParcel | src/edu/vuum/mocca/orm/StoryData.java:164-179 | the parcel holds the record's encoding from the old data position on, everything else as before; the position advances by 14 and the record is unchanged |
| StoryOrm.CreateFromParcel | src/edu/vuum/mocca/orm/StoryData.java:185-187 | `CREATOR.createFromParcel` gives a new record decoded from the data position |
| StoryOrm.ParcelRoundTrip | src/edu/vuum/mocca/orm/StoryData.java:164-212 | write, rewind to where the write began, create from the parcel: a new object equal to the original in every field |
| StoryOrm.CloneIsIndependent | src/edu/vuum/mocca/orm/StoryData.java:145-149 | assigning to a clone's field leaves the original's fields as they were |
| TagsOrm.GetCVfromTags | src/edu/vuum/mocca/orm/TagsCreator.java:26-32 | the row's key set is exactly `LOGIN_ID`, `STORY_ID`, `TAG`, so it never holds `ID` |
| TagsOrm.TagsToRowToTags | src/edu/vuum/mocca/orm/TagsCreator.java:26-76 | adding `ID = KEY_ID` to `getCVfromTags(d)` gives a row whose values have their columns' kinds and that reads back as `d`, a null tag included, under any getters meeting `AndroidGetters` |
| TagsOrm.RowToTagsToRow | src/edu/vuum/mocca/orm/TagsCreator.java:26-76 | reading a row whose values have their columns' kinds and converting back gives the row's `ID` and its `LOGIN_ID`, `STORY_ID` and `TAG` values |
| TagsOrm.GetTagsDataFromCursor | src/edu/vuum/mocca/orm/TagsCreator.java:61-76 | a row with every Tags column gives a new record with the row's `ID`, `LOGIN_ID`, `STORY_ID` and `TAG` as the getters read them. A row lacking a column gives an illegal-state failure, and only such a row does |
| TagsOrm.GetTagsDataArrayListFromCursor | src/edu/vuum/mocca/orm/TagsCreator.java:41-52 | a null cursor gives the empty list. Otherwise the call fails with an illegal-state exception exactly when some row lacks a Tags column. On success there is one new, distinct record per row, in row order, and the cursor ends after its last row. The cursor stays open either way |
| TagsOrm.EncodeTags | src/edu/vuum/mocca/orm/TagsData.java:102-107 | `writeToParcel` writes exactly 4 values, and reading them from their start gives the record back |
| TagsOrm.DecodeTags | src/edu/vuum/mocca/orm/TagsData.java:125-130 | the parcel constructor's reads succeed exactly when three longs and a string follow the data position |
| TagsOrm.DecodeOverwrittenTags | src/edu/vuum/mocca/orm/TagsData.java:102-130 | reading from where a record was written reproduces it, `KEY_ID` included |
| TagsOrm.DecodedTagsIsEncoded | src/edu/vuum/mocca/orm/TagsData.java:125-130 | the 4 values a successful read consumes are exactly the encoding of the record it gives |
| TagsOrm.TagsTextDetermines | src/edu/vuum/mocca/orm/TagsData.java:68-70 | two records' `toString` texts are equal exactly when their `loginId`s, `storyId`s and rendered tags are, so the text never depends on `KEY_ID` |
| TagsOrm.NullTagRendersAsNullText | src/edu/vuum/mocca/orm/TagsData.java:68-70 | a record with a null tag and the same record with the tag `"null"` are different, yet `toString` gives both the same text |
| TagsOrm.TagsData.ToString | src/edu/vuum/mocca/orm/TagsData.java:68-70 | `toString` is the text of the current fields. Its meaning is stated by `TagsTextDetermines`: the two ids and the tag's text are recovered from it, and `KEY_ID` plays no part |
| TagsOrm.TagsData.GetCV | src/edu/vuum/mocca/orm/TagsData.java:78-80 | `getCV` is `getCVfromTags` of the record's current fields |
| TagsOrm.TagsData.constructor | src/edu/vuum/mocca/orm/TagsData.java:41-46 | `KEY_ID` is -1 and `loginId`, `storyId`, `tag` are stored |
| TagsOrm.TagsData.WithId | src/edu/vuum/mocca/orm/TagsData.java:57-62 | the given `KEY_ID` and the three fields are stored unchanged |
| TagsOrm.TagsData.FromParcel | src/edu/vuum/mocca/orm/TagsData.java:125-130 | the private parcel constructor's record is the decoding at the data position, which advances by 4 |
| TagsOrm.TagsData.Clone | src/edu/vuum/mocca/orm/TagsData.java:85-87 | a new object with `KEY_ID` -1 and the same `loginId`, `storyId` and `tag` |
| TagsOrm.TagsData.DescribeContents | src/edu/vuum/mocca/orm/TagsData.java:94-96 | returns 0 |
| TagsOrm.TagsData.WriteToParcel | src/edu/vuum/mocca/orm/TagsData.java:102-107 | the parcel holds the record's encoding from the old data position on; the position advances by 4 and the record is unchanged |
| TagsOrm.CreateFromParcel | src/edu/vuum/mocca/orm/TagsData.java:113-115 | `CREATOR.createFromParcel` gives a new record decoded from the data position |
| TagsOrm.ParcelRoundTrip | src/edu/vuum/mocca/orm/TagsData.java:102-130 | write, rewind, create: a new object equal to the original in every field |
| TagsOrm.CloneIsIndependent | src/edu/vuum/mocca/orm/TagsData.java:85-87 | assigning to a clone's field leaves the original as it was |
| MoocResolverFacade.RowIdArgs | src/edu/vuum/mocca/orm/MoocResolver.java:325 | the by-id selection arguments are one non-null string, `String.valueOf(rowID)`, which reads back as `rowID` |
| MoocResolverFacade.MoocResolver.constructor | src/edu/vuum/mocca/orm/MoocResolver.java:33-46 | the facade keeps the given resolver; its endpoints are the Story and Tags content URIs |
| MoocResolverFacade.MoocResolver.BulkInsertStory | src/edu/vuum/mocca/orm/MoocResolver.java:76-85 | one bulk insert on the Story URI with an array of `data.size()` rows, entry i being `data[i].getCV()`; its count is returned unchanged |
| MoocResolverFacade.MoocResolver.BulkInsertTags | src/edu/vuum/mocca/orm/MoocResolver.java:96-105 | the same for Tags on the Tags URI |
| MoocResolverFacade.MoocResolver.DeleteStoryData | src/edu/vuum/mocca/orm/MoocResolver.java:119-122 | one delete on the Story URI with the selection as given; its count is returned |
| MoocResolverFacade.MoocResolver.DeleteTagsData | src/edu/vuum/mocca/orm/MoocResolver.java:133-136 | one delete on the Tags URI with the selection as given; its count is returned |
| MoocResolverFacade.MoocResolver.InsertStory | src/edu/vuum/mocca/orm/MoocResolver.java:161-165 | one insert on the Story URI of `getCV()` with `ID` removed, which is `getCV()` itself; the new row's URI is returned |
| MoocResolverFacade.MoocResolver.InsertTags | src/edu/vuum/mocca/orm/MoocResolver.java:167-171 | the same for Tags |
| MoocResolverFacade.MoocResolver.QueryStoryData | src/edu/vuum/mocca/orm/MoocResolver.java:216-229 | one query on the Story URI with the arguments as given. A null cursor gives a null-pointer failure. A row lacking a Story column gives an illegal-state failure, with the cursor left open. Otherwise the result is one record per row, in row order, each read by the cursor's getters (values of another kind are converted, not rejected), and the cursor is closed exactly once. In each non-null case the cursor's getters are Android's (`AndroidGetters`) |
| MoocResolverFacade.MoocResolver.QueryTagsData | src/edu/vuum/mocca/orm/MoocResolver.java:242-255 | one query on the Tags URI with the arguments as given. A null cursor gives a null-pointer failure. A row lacking a Tags column gives an illegal-state failure, with the cursor left open. Otherwise the result is one record per row, in row order, each read by the cursor's getters, and the cursor is closed exactly once. In each non-null case the cursor's getters are Android's |
| MoocResolverFacade.MoocResolver.UpdateStoryData | src/edu/vuum/mocca/orm/MoocResolver.java:271-274 | one update on the Story URI submitting `values.getCV()` with the selection as given |
| MoocResolverFacade.MoocResolver.UpdateTagsData | src/edu/vuum/mocca/orm/MoocResolver.java:286-289 | the same for Tags |
| MoocResolverFacade.QueriedStoryHoldsRowValues | src/edu/vuum/mocca/orm/MoocResolver.java:216-229 | after a successful Story query, the record from a row holding each column with the kind `getCVfromStory` writes has exactly that row's id and values |
| MoocResolverFacade.QueriedTagsHoldsRowValues | src/edu/vuum/mocca/orm/MoocResolver.java:242-255 | the same for a Tags query: the record holds the row's `ID`, `LOGIN_ID`, `STORY_ID` and `TAG` |
| MoocResolverFacade.MoocResolver.GetAllStoryData | src/edu/vuum/mocca/orm/MoocResolver.java:302-304 | the Story query with projection, selection, arguments and sort order all null, with its outcome: the records as Android's getters read the rows |
| MoocResolverFacade.MoocResolver.GetAllTagsData | src/edu/vuum/mocca/orm/MoocResolver.java:312-314 | the same for Tags |
| MoocResolverFacade.MoocResolver.GetStoryDataViaRowID | src/edu/vuum/mocca/orm/MoocResolver.java:323-333 | a Story query on `ID + "= ?"` with `String.valueOf(rowID)` as the only argument; the first record, as Android's getters read its row, or null when there is none; a query failure passes through |
| MoocResolverFacade.MoocResolver.GetTagsDataViaRowID | src/edu/vuum/mocca/orm/MoocResolver.java:342-352 | the same for Tags |
| MoocResolverFacade.MoocResolver.DeleteAllStoryWithRowID | src/edu/vuum/mocca/orm/MoocResolver.java:363-366 | one Story delete on `ID + " = ? "` with `String.valueOf(rowID)` as the only argument |
| MoocResolverFacade.MoocResolver.DeleteAllTagsWithRowID | src/edu/vuum/mocca/orm/MoocResolver.java:377-380 | the same for Tags |
| MoocResolverFacade.MoocResolver.UpdateStoryWithID | src/edu/vuum/mocca/orm/MoocResolver.java:391-395 | one Story update submitting `data.getCV()` on `"_id = ?"` with `String.valueOf(data.KEY_ID)` as the only argument |
| MoocResolverFacade.MoocResolver.UpdateTagsWithID | src/edu/vuum/mocca/orm/MoocResolver.java:406-410 | the same for Tags |

## Left out

- `applyBatch`, `getType` and `openFileDescriptor` (MoocResolver.java:56-60, 145-147, 196-199) only forward to platform calls whose behaviour is not part of this model.
- The content resolver's store is not modelled: which rows exist, and what counts, URIs and cursors come back. Apart from a returned cursor being new, open, before its first row and never closed, its replies are unconstrained, and every property is about what the facade passes in and what it does with the reply.
- `RemoteException` and any other failure inside the resolver.
- `MoocResolver`'s constructor takes the resolver itself. The `Activity` it comes from is not modelled.
- `StoryData.toString` (StoryData.java:123-130) needs the decimal rendering of `double`, and floating point is not modelled. `double` values are kept as opaque 64-bit patterns that are only copied and compared.
- `CREATOR.newArray` only allocates an array for the platform.
- The byte layout of `Parcel` (string encoding, alignment, sizes). The parcel holds one tagged value per write.
- StoryOrm.StoryData.FromParcel: requires the values from the data position to have the kinds the constructor reads. On Android, a read past the end or of a value of another kind returns a default or reinterprets bytes, which a parcel of tagged values cannot express.
- TagsOrm.TagsData.FromParcel: requires the values from the data position to have the kinds the constructor reads, for the same reason.
- StoryOrm.CreateFromParcel: carries the same requirement as `StoryData.FromParcel`, which it calls.
- TagsOrm.CreateFromParcel: carries the same requirement as `TagsData.FromParcel`, which it calls.
- StoryOrm.GetStoryDataFromCursor: requires an open cursor on a row. The source calls it only from the list converter's loop, where that holds. Reading from a cursor before its first row or after its last throws on Android, and that case is not modelled.
- TagsOrm.GetTagsDataFromCursor: requires an open cursor on a row, as `GetStoryDataFromCursor` does.
- StoryOrm.GetStoryDataArrayListFromCursor: requires a non-null cursor to be open. The facade passes it a cursor straight from the resolver, which is open. A closed cursor throws on Android, and that case is not modelled.
- TagsOrm.GetTagsDataArrayListFromCursor: requires a non-null cursor to be open, as `GetStoryDataArrayListFromCursor` does.
- `Conversions`: what the cursor returns is left open for text read as a number, a double read as a long or as text, and a long read as a double. These come from Android's native code (`strtoll`, `strtod`, C casts, `%g`), which is not part of this model. So for such cells the query contracts fix which cell a record field is read from, but not the value it reads as. A cell of its column's kind, or NULL, is fixed (`QueriedStoryHoldsRowValues`, `AndroidGetters`). Blob cells, which make the getters throw, are not modelled.
- Null arguments are not modelled; the parameter types exclude them. In the source each of the following throws `NullPointerException`:
  - `bulkInsertStory(null)`, `bulkInsertTags(null)`, or a null element in their lists (MoocResolver.java:78-81, 98-101);
  - `insert(null)` (MoocResolver.java:162, 168);
  - `updateStoryData(null, …)`, `updateTagsData(null, …)` (MoocResolver.java:273, 288);
  - `updateStoryWithID(null)`, `updateTagsWithID(null)` (MoocResolver.java:393, 408);
  - `getCVfromStory(null)`, `getCVfromTags(null)` (StoryCreator.java:28, TagsCreator.java:28);
  - `writeToParcel(null, …)` of either record (StoryData.java:164-165, TagsData.java:102-103).

  The one null the model does treat is the cursor the resolver returns.
- `ArrayList` is modelled as a sequence. `rValue.addAll(...)` copies the converter's list into a new list with the same elements, so the model returns that sequence itself.
- The concurrency and performance remarks on the facade.
- The values of the `MoocSchema` constants. Only their distinctness is assumed, and the Story and Tags constants `ID`, `LOGIN_ID` and `STORY_ID` are each represented by one column constructor. The two tables' rows never meet, so nothing depends on whether those names agree.
