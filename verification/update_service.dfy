/**
 * The update handler of project/update_qr_code_settings_service.py:
 * normalise format and error level, build the column map without the
 * columns whose value is None, update the row by id, and answer with the
 * id and whether a record came back.
 */
module UpdateService {
  import opened Optional
  import opened Ascii
  import opened Enums
  import opened Normalize
  import opened Config
  import opened Store

  /** The handler's answer. */
  datatype UpdateQRCodeSettingsResponse = UpdateQRCodeSettingsResponse(id: string, updated: bool)

  /** The columns every update writes; data joins them only when supplied. */
  const AlwaysWritten: set<Field> := {ColorField, SizeField, FormatField, ErrorCorrectionField}

  /**
   * The column map: each candidate column with its value, keeping only the
   * candidates whose value is not None. Only data can be None here.
   */
  function BuildUpdate(color: string, size: int, format: QRFormat, level: ErrorLevel, data: Option<string>): (m: Changes)
    ensures WellTyped(m)
    ensures m.Keys == AlwaysWritten + (if data.Some? then {DataField} else {})
    ensures DataField in m <==> data.Some?
    ensures m[ColorField] == Text(color) && m[SizeField] == Number(size)
    ensures m[FormatField] == FormatValue(format) && m[ErrorCorrectionField] == LevelValue(level)
    ensures data.Some? ==> m[DataField] == Text(data.value)
  {
    var candidates: map<Field, Option<FieldValue>> := map[
      ColorField := Some(Text(color)),
      SizeField := Some(Number(size)),
      FormatField := Some(FormatValue(format)),
      ErrorCorrectionField := Some(LevelValue(level)),
      DataField := if data.Some? then Some(Text(data.value)) else None];
    map f | f in candidates && candidates[f].Some? :: candidates[f].value
  }

  /** The table after the handler ran, and its response. */
  datatype Outcome = Outcome(table: Table, response: UpdateQRCodeSettingsResponse)

  /**
   * The handler. The stored row takes the caller's color and size, the
   * normalised format and level, and the new data only when data was given;
   * its id and every other row are left as they were.
   */
  function UpdateQRCodeSettings(
    t: Table, id: string, color: string, size: int, format: string, errorCorrection: string, data: Option<string>)
    : (o: Outcome)
    requires IdsMatchKeys(t)
    ensures o.response.id == id
    ensures o.response.updated <==> exists k :: k in t && t[k].id == id
    ensures o.response.updated <==> id in t
    ensures o.response.updated <==> Update(t, id, BuildUpdate(color, size, ParseFormat(format), ParseErrorLevel(errorCorrection), data)).record.Some?
    ensures o.table.Keys == t.Keys
    ensures forall k :: k in t && k != id ==> o.table[k] == t[k]
    ensures id in t ==> o.table[id] == t[id].(
      color := color, size := size,
      format := ParseFormat(format), errorCorrection := ParseErrorLevel(errorCorrection),
      data := data.GetOr(t[id].data))
    ensures IdsMatchKeys(o.table)
  {
    var m := BuildUpdate(color, size, ParseFormat(format), ParseErrorLevel(errorCorrection), data);
    var r := Update(t, id, m);
    var o := Outcome(r.table, UpdateQRCodeSettingsResponse(id, r.record.Some?));
    if id in t then
      RowsEqualByFields(r.table[id], t[id].(
        color := color, size := size,
        format := ParseFormat(format), errorCorrection := ParseErrorLevel(errorCorrection),
        data := data.GetOr(t[id].data)));
      o
    else
      o
  }

  /** An update without data leaves the stored data as it was. */
  lemma NoDataKeepsData(t: Table, id: string, color: string, size: int, format: string, errorCorrection: string)
    requires IdsMatchKeys(t)
    requires id in t
    ensures UpdateQRCodeSettings(t, id, color, size, format, errorCorrection, None).table[id].data == t[id].data
  {
  }

  /**
   * Calling the handler twice with the same arguments leaves the table as one
   * call does, and both calls give the same response.
   */
  lemma UpdateTwiceSameAsOnce(
    t: Table, id: string, color: string, size: int, format: string, errorCorrection: string, data: Option<string>)
    requires IdsMatchKeys(t)
    ensures var once := UpdateQRCodeSettings(t, id, color, size, format, errorCorrection, data);
            var twice := UpdateQRCodeSettings(once.table, id, color, size, format, errorCorrection, data);
            twice.table == once.table && twice.response == once.response
  {
  }

  /**
   * The stored format and level are always the normalised values: HIGH when
   * the level names no level, PNG when the format is not "svg" in any case.
   */
  lemma StoredEnumsAreNormalised(
    t: Table, id: string, color: string, size: int, format: string, errorCorrection: string, data: Option<string>)
    requires IdsMatchKeys(t)
    requires id in t
    ensures var row := UpdateQRCodeSettings(t, id, color, size, format, errorCorrection, data).table[id];
            (row.format == SVG <==> EqualIgnoringCase(format, "SVG")) &&
            ((forall l: ErrorLevel :: !EqualIgnoringCase(errorCorrection, LevelName(l))) ==> row.errorCorrection == HIGH)
  {
  }

  /** A worked request: a PATCH on an existing row with data omitted. */
  lemma PatchExample(t: Table, id: string)
    requires IdsMatchKeys(t)
    requires id in t
    ensures var o := UpdateQRCodeSettings(t, id, "red", 300, "png", "low", None);
            o.response == UpdateQRCodeSettingsResponse(id, true) &&
            o.table[id] == t[id].(color := "red", size := 300, format := PNG, errorCorrection := LOW)
  {
    FormatExamples();
    ErrorLevelNamedExamples();
  }

  /** A request for an id with no row changes nothing and reports not updated. */
  lemma MissingIdExample(t: Table, id: string)
    requires IdsMatchKeys(t)
    requires id !in t
    ensures UpdateQRCodeSettings(t, id, "red", 300, "png", "low", None) ==
            Outcome(t, UpdateQRCodeSettingsResponse(id, false))
  {
  }
}
