/**
 * Record shapes from shared/schema.ts. The file declares tables and
 * validators only; these datatypes keep the fields the rest of the model
 * reads and writes.
 */
module Schema {
  import opened Wrappers

  /** A stored observation. `campaignId` is nullable; `timestamp` is a time
      in milliseconds, the value `Date.getTime()` gives. */
  datatype DataPoint = DataPoint(
    id: int,
    campaignId: Option<int>,
    value: int,
    timestamp: int,
    category: string)

  /** The fields of a data point before the store assigns its id. */
  datatype NewDataPoint = NewDataPoint(
    campaignId: Option<int>,
    value: int,
    timestamp: int,
    category: string)

  datatype User = User(id: int, username: string, password: string)

  /** The fields of a user before the store assigns its id. */
  datatype NewUser = NewUser(username: string, password: string)
}
