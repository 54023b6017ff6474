/** The operating system as the tools see it: oracles for the effects the
    model does not carry out itself. */
module Environment {

  /** What reading a file yields: its contents, a "does not exist" failure,
      or any other failure; each failure carries the text of Go's error. */
  datatype FileOutcome = Contents(data: string) | Missing(detail: string) | Unreadable(detail: string)

  /** What creating (or truncating) a file and writing to it yields. */
  datatype WriteOutcome = Written | CreateFailed(detail: string) | WriteFailed(detail: string)

  /** The effects the agent's own tool handlers use: read a file, create and
      write a file, run a command through `sh -c` and collect its combined
      standard output and standard error. */
  datatype Host = Host(
    readFile: string -> FileOutcome,
    writeFile: (string, string) -> WriteOutcome,
    runShell: string -> string)
}
