/**
 * The values the report generator reads: the per-test result record written
 * by the test run, the outcome of reading one file as JSON, a directory
 * entry, and the outcome of listing the results directory.
 */
module Records {

  /** One test case's result, in the shape the test run writes it. */
  datatype Record = Record(
    testCaseId: string,
    testCaseName: string,
    status: string,
    username: string,
    executionTime: string,
    browser: string,
    steps: seq<string>)

  /** What reading a file as JSON gives: a record, or a failure (unreadable file or bad JSON). */
  datatype ParseResult = Parsed(record: Record) | Malformed

  /**
   * A name in the results directory together with what reading it would give.
   * The content is only consulted when the generator chooses to read the file.
   */
  datatype Entry = Entry(name: string, content: ParseResult)

  /** Listing the results directory either fails or gives its entries in listing order. */
  datatype Listing = ListFailed | Listed(entries: seq<Entry>)

  /** Why a run produced no report. */
  datatype Error = DirectoryUnreadable | FileUnreadable(name: string)

  datatype Result<T> = Success(value: T) | Failure(error: Error)
}
