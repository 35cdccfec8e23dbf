/**
 * The persisted QRCodeConfig row and the field-level partial merge that an
 * update applies to it. An update is a map from column to new value; columns
 * absent from the map keep their stored value.
 */
module Config {
  import opened Enums

  /** One row of the configuration table. */
  datatype QRCodeConfig = QRCodeConfig(
    id: string,
    color: string,
    size: int,
    format: QRFormat,
    errorCorrection: ErrorLevel,
    data: string)

  /** The columns an update may write; `id` is not among them. */
  datatype Field = ColorField | SizeField | FormatField | ErrorCorrectionField | DataField

  /** A column value as it travels in an update map. */
  datatype FieldValue =
    | Text(text: string)
    | Number(number: int)
    | FormatValue(format: QRFormat)
    | LevelValue(level: ErrorLevel)

  /** A partial update: the columns to overwrite and their new values. */
  type Changes = map<Field, FieldValue>

  /** The value a row holds in a column. */
  function FieldOf(row: QRCodeConfig, f: Field): FieldValue
  {
    match f
    case ColorField => Text(row.color)
    case SizeField => Number(row.size)
    case FormatField => FormatValue(row.format)
    case ErrorCorrectionField => LevelValue(row.errorCorrection)
    case DataField => Text(row.data)
  }

  /** Whether a value has the type the column is declared with. */
  predicate Fits(f: Field, v: FieldValue)
  {
    match f
    case ColorField => v.Text?
    case SizeField => v.Number?
    case FormatField => v.FormatValue?
    case ErrorCorrectionField => v.LevelValue?
    case DataField => v.Text?
  }

  /** Every value in the update has its column's type. */
  predicate WellTyped(m: Changes)
  {
    forall f :: f in m ==> Fits(f, m[f])
  }

  /**
   * Two rows with the same id that agree on every updatable column are the
   * same row: the columns of Field together with id cover the whole record.
   */
  lemma RowsEqualByFields(a: QRCodeConfig, b: QRCodeConfig)
    requires a.id == b.id
    requires forall f :: FieldOf(a, f) == FieldOf(b, f)
    ensures a == b
  {
    assert FieldOf(a, ColorField) == FieldOf(b, ColorField);
    assert FieldOf(a, SizeField) == FieldOf(b, SizeField);
    assert FieldOf(a, FormatField) == FieldOf(b, FormatField);
    assert FieldOf(a, ErrorCorrectionField) == FieldOf(b, ErrorCorrectionField);
    assert FieldOf(a, DataField) == FieldOf(b, DataField);
  }

  /**
   * Merges an update into a row: each column named in the update takes the
   * update's value, every other column and the id keep the row's value.
   */
  function ApplyChanges(row: QRCodeConfig, m: Changes): (r: QRCodeConfig)
    requires WellTyped(m)
    ensures r.id == row.id
    ensures forall f :: FieldOf(r, f) == if f in m then m[f] else FieldOf(row, f)
  {
    QRCodeConfig(
      row.id,
      if ColorField in m then m[ColorField].text else row.color,
      if SizeField in m then m[SizeField].number else row.size,
      if FormatField in m then m[FormatField].format else row.format,
      if ErrorCorrectionField in m then m[ErrorCorrectionField].level else row.errorCorrection,
      if DataField in m then m[DataField].text else row.data)
  }

  /** An empty update changes nothing. */
  lemma ApplyNothing(row: QRCodeConfig)
    ensures ApplyChanges(row, map[]) == row
  {
    RowsEqualByFields(ApplyChanges(row, map[]), row);
  }

  /** Applying two updates in turn is one update with the later one winning on shared columns. */
  lemma ApplySequential(row: QRCodeConfig, m1: Changes, m2: Changes)
    requires WellTyped(m1) && WellTyped(m2)
    ensures WellTyped(m1 + m2)
    ensures ApplyChanges(ApplyChanges(row, m1), m2) == ApplyChanges(row, m1 + m2)
  {
    RowsEqualByFields(ApplyChanges(ApplyChanges(row, m1), m2), ApplyChanges(row, m1 + m2));
  }

  /** Applying the same update twice leaves the row as applying it once. */
  lemma ApplyIdempotent(row: QRCodeConfig, m: Changes)
    requires WellTyped(m)
    ensures ApplyChanges(ApplyChanges(row, m), m) == ApplyChanges(row, m)
  {
    ApplySequential(row, m, m);
    assert m + m == m;
  }
}
