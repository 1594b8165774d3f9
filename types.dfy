/**
 * The entities of the application (projects, their files and versions, the
 * AI log) and the values an operation can throw.
 *
 * Times are epoch milliseconds supplied by the caller, and identifiers are
 * supplied by the caller as well: the random identifiers and the clock of the
 * application are parameters of the model.
 */
module Types {
  import opened Wrappers

  /** Epoch milliseconds. */
  type Time = int

  datatype Project = Project(
    id: string,
    name: string,
    description: Option<string>,
    createdAt: Time,
    updatedAt: Time)

  datatype ProjectFile = ProjectFile(
    id: string,
    projectId: string,
    path: string,
    content: string,
    fileType: string,
    createdAt: Time,
    updatedAt: Time)

  /** What a version snapshot serialises: the files of a generation and its time. */
  datatype Snapshot = Snapshot(files: seq<ProjectFile>, generatedAt: Time)

  datatype ProjectVersion = ProjectVersion(
    id: string,
    projectId: string,
    versionNumber: int,
    snapshot: Snapshot,
    description: Option<string>,
    createdAt: Time)

  datatype LogLevel = Info | Warning | Error

  /** An AI log entry: which agent reported what, at which level. */
  datatype AILog = AILog(agent: string, level: LogLevel, message: string, context: Option<string>)

  /** A value raised by `throw`. */
  datatype Thrown =
    | ValidationError(message: string)
      /** The application's own client error, with the HTTP status when there was one. */
    | GroqError(message: string, statusCode: Option<int>)
      /** An error object of the HTTP client that carries a `status` property. */
    | ApiError(message: string, status: Option<int>)
      /** Any other `Error`. */
    | PlainError(message: string)
      /** A thrown value that is not an `Error` instance. */
    | NonError
  {
    /** `error instanceof Error ? error.message : fallback`. */
    function MessageOr(fallback: string): string
    {
      if NonError? then fallback else message
    }
  }
}
