/**
 * The records the Komga server hands back, reduced to the fields the bot reads.
 * Timestamps are instants in nanoseconds on one time line, the resolution of a
 * `chrono::DateTime`; the server's RFC 3339 strings and their parsing are not part
 * of this model.
 */
module Komga {

  type Timestamp = int

  datatype Library = Library(id: string, name: string)

  datatype Series = Series(id: string, name: string, created: Timestamp)

  datatype Book = Book(id: string, seriesId: string, name: string, created: Timestamp, fileLastModified: Timestamp)

  /** One measurement of an actuator metric; the value is the decimal text the bot prints. */
  datatype Measurement = Measurement(statistic: string, value: string)

  datatype Metric = Metric(name: string, measurements: seq<Measurement>)

  /** A failed request to the server. */
  datatype ApiError = ApiError(message: string)
}
