/** What every sink shares: the job it reports on, the file-name cleaning
    and the state label of its results. */
module BaseAction {
  import opened Wrappers
  import Text
  import Jobs

  /** Path.GetInvalidFileNameChars on Windows. */
  const InvalidFileNameChars: set<char> :=
    (set i | 0 <= i < 32 :: i as char) + {'"', '<', '>', '|', ':', '*', '?', '\\', '/'}

  const NullJobMessage: string := "The job result must not be null."

  /** The constructor's guard: an action needs a job result. */
  function CheckJobResult(job: Jobs.JobResult?): (r: Result<Jobs.JobResult>)
    ensures r.Failure? <==> job == null
    ensures r.Failure? ==> r.error == NullJobMessage
    ensures r.Success? ==> r.value == job
  {
    if job == null then Failure(NullJobMessage) else Success(job)
  }

  /** Every invalid file-name character replaced by '_'. */
  function NormalizeReportName(filename: string): (r: string)
    ensures |r| == |filename|
    ensures forall i :: 0 <= i < |r| ==> r[i] == if filename[i] in InvalidFileNameChars then '_' else filename[i]
  {
    Text.JoinSplitOn(filename, InvalidFileNameChars, '_');
    Text.Join("_", Text.SplitOn(filename, InvalidFileNameChars))
  }

  /** A normalised name is a valid file name, and normalising it again
      changes nothing. */
  lemma NormalizeReportNameValid(filename: string)
    ensures forall i :: 0 <= i < |NormalizeReportName(filename)| ==> NormalizeReportName(filename)[i] !in InvalidFileNameChars
    ensures NormalizeReportName(NormalizeReportName(filename)) == NormalizeReportName(filename)
  {
    var r := NormalizeReportName(filename);
    assert '_' !in InvalidFileNameChars;
    var rr := NormalizeReportName(r);
    assert forall i :: 0 <= i < |r| ==> rr[i] == r[i];
  }

  /** The upper-cased status of the job, "Unknown state" without one. */
  function GetFormatedState(job: Jobs.JobResult?): (s: string)
    reads job
    ensures job != null ==> |s| == |job.status.Name()|
    ensures job != null ==> forall i :: 0 <= i < |s| ==> s[i] == Text.UpperChar(job.status.Name()[i])
    ensures job != null ==> forall i :: 0 <= i < |s| ==> !('a' <= s[i] <= 'z')
    ensures job == null ==> s == "Unknown state"
  {
    if job == null then "Unknown state" else Text.ToUpper(job.status.Name())
  }

  /** A job set to ERROR reports the state "ERROR". */
  lemma ErrorState(job: Jobs.JobResult)
    requires job.status == Jobs.ERROR
    ensures GetFormatedState(job) == "ERROR"
  {
    var s := GetFormatedState(job);
    assert |s| == 5;
    assert s[0] == 'E' && s[1] == 'R' && s[2] == 'R' && s[3] == 'O' && s[4] == 'R';
  }
}
