/**
 * Stand-ins for the Android platform classes the ORM layer uses:
 * `ContentValues` and cursor rows as maps from column names to values,
 * `Cursor` as a sequence of result rows with a position, `Parcel` as a
 * sequence of tagged values with a data position, and `ContentResolver` as
 * an object that records every call made to it together with the reply it
 * gave, its replies being otherwise unconstrained.
 */
module Android {
  import opened JavaLang
  import opened MoocSchema

  /**
   * A value stored under a column name. A null `String` is `StringValue(None)`,
   * which is also how a cursor cell holding SQL NULL is represented.
   */
  datatype Value =
    | LongValue(l: Long)
    | StringValue(s: JString)
    | DoubleValue(d: Double)

  /**
   * The conversions Android's cursor window applies to a stored value read
   * with a getter of another kind, where this model does not spell them out:
   * text parsed as a number (`strtoll`, `strtod`), a double cast to a long, a
   * long cast to a double, a double formatted as text (`%g`).
   */
  datatype Conversions = Conversions(
    textToLong: string -> Long,
    textToDouble: string -> Double,
    doubleToLong: Double -> Long,
    longToDouble: Long -> Double,
    doubleToText: Double -> string)

  /** What `getLong` returns for a stored value: the value itself, or 0 for NULL. */
  function AsLong(conv: Conversions, v: Value): Long {
    match v
    case LongValue(l) => l
    case StringValue(None) => 0
    case StringValue(Some(t)) => conv.textToLong(t)
    case DoubleValue(d) => conv.doubleToLong(d)
  }

  /** What `getString` returns: the value itself, null for NULL, a long's decimal text. */
  function AsString(conv: Conversions, v: Value): JString {
    match v
    case StringValue(s) => s
    case LongValue(l) => Some(LongToString(l))
    case DoubleValue(d) => Some(conv.doubleToText(d))
  }

  /** What `getDouble` returns: the value itself, or 0.0 (all bits clear) for NULL. */
  function AsDouble(conv: Conversions, v: Value): Double {
    match v
    case DoubleValue(d) => d
    case StringValue(None) => Double(0)
    case StringValue(Some(t)) => conv.textToDouble(t)
    case LongValue(l) => conv.longToDouble(l)
  }

  /** A cursor's `getLong`, `getString` and `getDouble`, as functions of the stored value. */
  datatype Getters = Getters(getLong: Value -> Long, getString: Value -> JString, getDouble: Value -> Double)

  /** The getters of a cursor over the platform's cursor window. */
  function PlatformGetters(conv: Conversions): Getters {
    Getters(v => AsLong(conv, v), v => AsString(conv, v), v => AsDouble(conv, v))
  }

  /**
   * What Android fixes about the getters: a value of the getter's own kind
   * comes back as it is, NULL reads as 0, null or 0.0, and a long read as a
   * string gives its decimal text.
   */
  ghost predicate AndroidGetters(g: Getters) {
    && (forall l: Long :: g.getLong(LongValue(l)) == l)
    && g.getLong(StringValue(None)) == 0
    && (forall s: JString :: g.getString(StringValue(s)) == s)
    && (forall l: Long :: g.getString(LongValue(l)) == Some(LongToString(l)))
    && (forall d: Double :: g.getDouble(DoubleValue(d)) == d)
    && g.getDouble(StringValue(None)) == Double(0)
  }

  /** The platform's getters are Android's, whatever the conversions it leaves to native code. */
  lemma PlatformGettersAreAndroid(conv: Conversions)
    ensures AndroidGetters(PlatformGetters(conv))
  {
  }

  /** `android.content.ContentValues`: the write-side row. */
  type ContentValues = map<Column, Value>

  /** One row of a query result, looked up by column name. */
  type Row = map<Column, Value>

  /** `row` holds column `c`, with a value of the given kind. */
  predicate HasLong(row: Row, c: Column) {
    c in row && row[c].LongValue?
  }

  predicate HasString(row: Row, c: Column) {
    c in row && row[c].StringValue?
  }

  predicate HasDouble(row: Row, c: Column) {
    c in row && row[c].DoubleValue?
  }

  /**
   * A selection (SQL `WHERE` text) as the layer builds it: either a literal
   * string, or a schema column constant followed by literal text, kept
   * symbolic because the constants' values are not part of this model.
   */
  datatype Selection =
    | Literal(text: string)
    | ColumnAndText(column: Column, text: string)

  /**
   * `android.database.Cursor` over a fixed result. The position starts
   * before the first row (-1) and ends after the last one (|rows|).
   * `getColumnIndex` followed by `getLong`/`getString`/`getDouble` is
   * modelled as one read by column name; reading a column the row does not
   * have throws, and is left to the caller to report.
   */
  class Cursor {
    const rows: seq<Row>
    const getters: Getters
    var position: int
    var closed: bool
    ghost var closeCount: nat

    constructor (rows: seq<Row>, getters: Getters)
      ensures this.rows == rows && this.getters == getters
      ensures position == -1 && !closed && closeCount == 0
    {
      this.rows := rows;
      this.getters := getters;
      position := -1;
      closed := false;
      closeCount := 0;
    }

    /** The cursor is open and on a row. */
    predicate OnRow()
      reads this
    {
      !closed && 0 <= position < |rows|
    }

    method MoveToFirst() returns (moved: bool)
      requires !closed
      modifies this`position
      ensures moved <==> |rows| > 0
      ensures position == 0
    {
      moved := 0 < |rows|;
      position := 0;
    }

    method MoveToNext() returns (moved: bool)
      requires !closed
      modifies this`position
      ensures moved <==> old(position) + 1 < |rows|
      ensures position == if moved then old(position) + 1 else |rows|
    {
      if position + 1 < |rows| {
        position := position + 1;
        moved := true;
      } else {
        position := |rows|;
        moved := false;
      }
    }

    function GetLong(c: Column): Long
      reads this
      requires OnRow() && c in rows[position]
    {
      getters.getLong(rows[position][c])
    }

    function GetString(c: Column): JString
      reads this
      requires OnRow() && c in rows[position]
    {
      getters.getString(rows[position][c])
    }

    function GetDouble(c: Column): Double
      reads this
      requires OnRow() && c in rows[position]
    {
      getters.getDouble(rows[position][c])
    }

    method Close()
      modifies this`closed, this`closeCount
      ensures closed && closeCount == old(closeCount) + 1
    {
      closed := true;
      closeCount := closeCount + 1;
    }
  }

  /** One value written to a parcel, tagged with the kind of write that produced it. */
  datatype ParcelItem =
    | LongItem(l: Long)
    | StringItem(s: JString)
    | DoubleItem(d: Double)

  /**
   * `items` with `block` written over it from index `at`: what a sequence of
   * writes starting at data position `at` leaves behind.
   */
  function Overwrite(items: seq<ParcelItem>, at: nat, block: seq<ParcelItem>): seq<ParcelItem>
    requires at <= |items|
  {
    items[..at] + block + if at + |block| <= |items| then items[at + |block|..] else []
  }

  /** The block sits at `at`; every other item is the old one; the parcel grows only as far as the block reaches. */
  lemma OverwriteShape(items: seq<ParcelItem>, at: nat, block: seq<ParcelItem>)
    requires at <= |items|
    ensures var r := Overwrite(items, at, block);
      && |r| == (if at + |block| <= |items| then |items| else at + |block|)
      && r[at..at + |block|] == block
      && forall i :: 0 <= i < |r| && !(at <= i < at + |block|) ==> r[i] == items[i]
  {
  }

  /** Writing `a` and then `b` right after it is writing `a + b`. */
  lemma OverwriteConcat(items: seq<ParcelItem>, at: nat, a: seq<ParcelItem>, b: seq<ParcelItem>)
    requires at <= |items|
    ensures at + |a| <= |Overwrite(items, at, a)|
    ensures Overwrite(Overwrite(items, at, a), at + |a|, b) == Overwrite(items, at, a + b)
  {
  }

  /** Writing at the end of the items appends the block. */
  lemma OverwriteAtEnd(items: seq<ParcelItem>, block: seq<ParcelItem>)
    ensures Overwrite(items, |items|, block) == items + block
  {
  }

  /**
   * `android.os.Parcel` at the granularity of the values written to it:
   * writes go to the data position and advance it, reads take the value at
   * the data position and advance it.
   */
  class Parcel {
    var items: seq<ParcelItem>
    var position: nat

    ghost predicate Valid()
      reads this
    {
      position <= |items|
    }

    /** `Parcel.obtain()`: an empty parcel. */
    constructor ()
      ensures Valid() && items == [] && position == 0
    {
      items := [];
      position := 0;
    }

    method SetDataPosition(pos: nat)
      requires pos <= |items|
      modifies this`position
      ensures Valid() && position == pos
    {
      position := pos;
    }

    method Write(x: ParcelItem)
      requires Valid()
      modifies this
      ensures Valid()
      ensures items == Overwrite(old(items), old(position), [x])
      ensures position == old(position) + 1
    {
      items := Overwrite(items, position, [x]);
      position := position + 1;
    }

    method WriteLong(v: Long)
      requires Valid()
      modifies this
      ensures Valid()
      ensures items == Overwrite(old(items), old(position), [LongItem(v)])
      ensures position == old(position) + 1
    {
      Write(LongItem(v));
    }

    method WriteString(v: JString)
      requires Valid()
      modifies this
      ensures Valid()
      ensures items == Overwrite(old(items), old(position), [StringItem(v)])
      ensures position == old(position) + 1
    {
      Write(StringItem(v));
    }

    method WriteDouble(v: Double)
      requires Valid()
      modifies this
      ensures Valid()
      ensures items == Overwrite(old(items), old(position), [DoubleItem(v)])
      ensures position == old(position) + 1
    {
      Write(DoubleItem(v));
    }

    method ReadLong() returns (v: Long)
      requires position < |items| && items[position].LongItem?
      modifies this`position
      ensures Valid()
      ensures v == items[old(position)].l && position == old(position) + 1
    {
      v := items[position].l;
      position := position + 1;
    }

    method ReadString() returns (v: JString)
      requires position < |items| && items[position].StringItem?
      modifies this`position
      ensures Valid()
      ensures v == items[old(position)].s && position == old(position) + 1
    {
      v := items[position].s;
      position := position + 1;
    }

    method ReadDouble() returns (v: Double)
      requires position < |items| && items[position].DoubleItem?
      modifies this`position
      ensures Valid()
      ensures v == items[old(position)].d && position == old(position) + 1
    {
      v := items[position].d;
      position := position + 1;
    }
  }

  /** One call made to the content resolver, with the reply it gave. */
  datatype Call =
    | BulkInsertCall(uri: Uri, values: seq<ContentValues>, inserted: Int)
    | InsertCall(uri: Uri, row: ContentValues, created: Option<Uri>)
    | QueryCall(uri: Uri, projection: Option<seq<JString>>, selection: Option<Selection>,
                selectionArgs: Option<seq<JString>>, sortOrder: JString, result: Cursor?)
    | UpdateCall(uri: Uri, row: ContentValues, selection: Option<Selection>,
                 selectionArgs: Option<seq<JString>>, updated: Int)
    | DeleteCall(uri: Uri, selection: Option<Selection>, selectionArgs: Option<seq<JString>>, deleted: Int)

  /**
   * `android.content.ContentResolver`. What the provider stores and answers
   * is not modelled: a reply can be any value of its type, except that a
   * cursor, when one comes back, is a new one, open, before its first row and
   * never closed before. `log` records what was asked and what came back, so
   * that callers can be specified by what they pass in and how they treat
   * the reply.
   */
  class ContentResolver {
    var log: seq<Call>

    constructor ()
      ensures log == []
    {
      log := [];
    }

    method BulkInsert(uri: Uri, values: array<ContentValues>) returns (inserted: Int)
      modifies this
      ensures log == old(log) + [BulkInsertCall(uri, values[..], inserted)]
    {
      inserted := *;
      log := log + [BulkInsertCall(uri, values[..], inserted)];
    }

    method Insert(uri: Uri, row: ContentValues) returns (created: Option<Uri>)
      modifies this
      ensures log == old(log) + [InsertCall(uri, row, created)]
    {
      created := *;
      log := log + [InsertCall(uri, row, created)];
    }

    /** The cursor returned, when not null, is a new one, open and before its first row. */
    method Query(uri: Uri, projection: Option<seq<JString>>, selection: Option<Selection>,
                 selectionArgs: Option<seq<JString>>, sortOrder: JString) returns (result: Cursor?)
      modifies this
      ensures log == old(log) + [QueryCall(uri, projection, selection, selectionArgs, sortOrder, result)]
      ensures result != null ==>
        fresh(result) && !result.closed && result.position == -1 && result.closeCount == 0
      ensures result != null ==> AndroidGetters(result.getters)
    {
      var answered: bool := *;
      if answered {
        var rows: seq<Row> := *;
        var conv: Conversions := *;
        PlatformGettersAreAndroid(conv);
        result := new Cursor(rows, PlatformGetters(conv));
      } else {
        result := null;
      }
      log := log + [QueryCall(uri, projection, selection, selectionArgs, sortOrder, result)];
    }

    method Update(uri: Uri, row: ContentValues, selection: Option<Selection>,
                  selectionArgs: Option<seq<JString>>) returns (updated: Int)
      modifies this
      ensures log == old(log) + [UpdateCall(uri, row, selection, selectionArgs, updated)]
    {
      updated := *;
      log := log + [UpdateCall(uri, row, selection, selectionArgs, updated)];
    }

    method Delete(uri: Uri, selection: Option<Selection>,
                  selectionArgs: Option<seq<JString>>) returns (deleted: Int)
      modifies this
      ensures log == old(log) + [DeleteCall(uri, selection, selectionArgs, deleted)]
    {
      deleted := *;
      log := log + [DeleteCall(uri, selection, selectionArgs, deleted)];
    }
  }
}
