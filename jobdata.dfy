/** The rendered files of the current job, kept in one list shared by all
    job results (a static field of the extension class). */
module JobResultExtension {
  import opened Wrappers
  import Jobs

  class FileDataList {
    /** None until the first SetData. */
    var list: Option<seq<Jobs.FileData>>

    constructor()
      ensures list == None
    {
      list := None;
    }

    /** SetData: replaces the one shared list, whatever job it is called on;
        the job itself is not touched. */
    method SetData(job: Jobs.JobResult, fileDataList: Option<seq<Jobs.FileData>>)
      modifies this
      ensures list == fileDataList
    {
      list := fileDataList;
    }

    /** GetData(): the shared list, or an empty one before any SetData. */
    function GetData(job: Jobs.JobResult): (r: seq<Jobs.FileData>)
      reads this
      ensures list.None? ==> r == []
      ensures list.Some? ==> r == list.value
    {
      list.GetOr([])
    }

    /** GetData(filename): the first entry with that file name, or None for
        a null or empty name, no list, or no such entry. */
    function GetDataByName(job: Jobs.JobResult, filename: Option<string>): (r: Option<Jobs.FileData>)
      reads this
      ensures (filename.None? || filename == Some("") || list.None?) ==> r.None?
      ensures r.Some? ==> r.value.filename == filename.value && r.value in list.value
      ensures r.Some? ==> exists k :: 0 <= k < |list.value| && list.value[k] == r.value
                            && forall j :: 0 <= j < k ==> list.value[j].filename != filename.value
      ensures (r.None? && filename.Some? && filename.value != "" && list.Some?) ==>
                forall k :: 0 <= k < |list.value| ==> list.value[k].filename != filename.value
    {
      match filename
      case None => None
      case Some(name) =>
        if name == "" || list.None? then None else Jobs.FirstFileData(list.value, name)
    }
  }

  /** SetData on one job is seen by GetData on any other job. */
  method SharedAcrossJobs(store: FileDataList, a: Jobs.JobResult, b: Jobs.JobResult, data: seq<Jobs.FileData>)
    returns (seen: seq<Jobs.FileData>)
    modifies store
    ensures seen == data
  {
    store.SetData(a, Some(data));
    seen := store.GetData(b);
  }
}
