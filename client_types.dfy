/**
 * The shape of a job application as the web client receives it from the
 * API, shared by the client's pages.
 */
module ClientTypes {
  /** The fields of a job application the client filters and counts on. */
  datatype Card = Card(id: int, title: string, company: string, position: string, status: string)
}
