/**
 * The type tags and the column descriptor declared in insights/dataset.go.
 * They live in a module of their own because both the error messages and the
 * dataset refer to them.
 */
module DataTypes {

  /** Tag of the metrics whose column holds 64-bit floats. */
  const Float: string := "float64"

  /** Tag of the metrics whose column holds strings. */
  const String: string := "string"

  /**
   * A column descriptor. `index` is the position of the column in the
   * dataset's array for `dataType`; the dataset assigns it on insertion.
   */
  datatype Metric = Metric(name: string, index: int, dataType: string, displayName: string)
}
