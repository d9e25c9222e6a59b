/** Types shared by the monitor's modules. */
module Common {

  /** A value that may be absent: a file that could not be opened, a label that never appeared. */
  datatype Option<T> = None | Some(value: T)

  /**
   * One line of a `/proc` key-value file, as the token extraction of the monitor sees it:
   * the first whitespace-separated token (`MemTotal:`, `VmRSS:`, ...) and the number after it.
   */
  datatype Field = Field(key: string, value: int)
}
