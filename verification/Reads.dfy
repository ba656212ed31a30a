/** The read-only services over a snapshot of the tables: reports and download links. */
module Reads {
  import opened Strategy
  import opened Tables
  import opened ObjectKeys

  datatype ReadError = TaskNotFound | InvalidArtifact | ArtifactNotFound | ReportNotReady

  datatype Result<+T> = Ok(value: T) | Err(error: ReadError)

  datatype Report = Report(
    taskId: nat, taskNo: string, beforeScore: int, afterScore: int, riskLevel: RiskLevel,
    fileName: string, sha256: string)

  function ArtifactFileName(key: string): string {
    if key == "" then "" else Split(key)[|Split(key)| - 1]
  }

  /** The deciding fields of BuildHardeningReport; labels and descriptions carry no further state. */
  function BuildReport(t: nat, row: TaskRow): Report {
    var score := AfterScore(ResolveEffectiveFlags(row.snapshot), row.snapshot.dexLevel);
    var signedName := ArtifactFileName(row.artifacts.signedKey);
    Report(t, row.taskNo, 100, score, RiskLevelForScore(score),
           if signedName != "" then signedName else ArtifactFileName(row.artifacts.unsignedKey),
           if signedName != "" then row.artifacts.signedSha else row.artifacts.unsignedSha)
  }

  function GetReport(db: Db, t: nat): Result<Report> {
    if t !in db.tasks then Err(TaskNotFound)
    else if db.tasks[t].status != Completed then Err(ReportNotReady)
    else Ok(BuildReport(t, db.tasks[t]))
  }

  /** The object key DownloadURL asks storage to presign. */
  function DownloadKey(db: Db, t: nat, artifact: string): Result<string> {
    if t !in db.tasks then Err(TaskNotFound)
    else if artifact == "" || artifact == "unsigned" then Present(db.tasks[t].artifacts.unsignedKey)
    else if artifact == "signed_test" then Present(db.tasks[t].artifacts.signedKey)
    else Err(InvalidArtifact)
  }

  function Present(key: string): Result<string> {
    if key == "" then Err(ArtifactNotFound) else Ok(key)
  }
}
