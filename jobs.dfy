/** The objects the distribution works on: job results with their reports
    and rendered files, the Qlik connections the sinks borrow, and the file
    system the file sink writes to. */
module Jobs {
  import opened Wrappers
  import Json
  import Paths

  newtype byte = x: int | 0 <= x < 256

  /** TaskStatusInfo; `Other` stands for any further member, by its name. */
  datatype TaskStatus = SUCCESS | WARNING | ERROR | RETRYERROR | INACTIVE | ABORT | Other(name: string) {
    /** Enum.ToString */
    function Name(): string {
      match this
      case SUCCESS => "SUCCESS"
      case WARNING => "WARNING"
      case ERROR => "ERROR"
      case RETRYERROR => "RETRYERROR"
      case INACTIVE => "INACTIVE"
      case ABORT => "ABORT"
      case Other(n) => n
    }
  }

  /** A rendered file of a report: its file name and its bytes. */
  datatype FileData = FileData(filename: string, data: seq<byte>)

  /** A report of a job: its name (null read as ""), the paths of its
      rendered files, their contents, and its "distribute" section. */
  datatype Report = Report(name: string, paths: seq<string>, data: seq<FileData>, distribute: Option<Json.Json>)

  /** The first entry of `data` called `filename` (FirstOrDefault). */
  function FirstFileData(data: seq<FileData>, filename: string): (r: Option<FileData>)
    ensures r.Some? ==> r.value in data && r.value.filename == filename
    ensures r.None? ==> forall k :: 0 <= k < |data| ==> data[k].filename != filename
    ensures r.Some? ==> exists k :: 0 <= k < |data| && data[k] == r.value
                          && forall j :: 0 <= j < k ==> data[j].filename != filename
  {
    if data == [] then None
    else if data[0].filename == filename then Some(data[0])
    else
      var r := FirstFileData(data[1..], filename);
      assert forall k :: 1 <= k < |data| ==> data[k] == data[1..][k - 1];
      r
  }

  /** The result of one job: its task name, which the distribution assigns,
      its status and the message of its exception, which a failing sink
      overwrites, and its reports. */
  class JobResult {
    var taskName: string
    var status: TaskStatus
    var exception: Option<string>
    const reports: seq<Report>

    constructor(status: TaskStatus, exception: Option<string>, reports: seq<Report>)
      ensures this.taskName == "" && this.status == status && this.exception == exception
      ensures this.reports == reports
    {
      this.taskName := "";
      this.status := status;
      this.exception := exception;
      this.reports := reports;
    }

    /** A sink failed: the job is marked ERROR with the failure's message. */
    method Fail(message: string)
      modifies this
      ensures status == ERROR && exception == Some(message) && taskName == old(taskName)
    {
      status := ERROR;
      exception := Some(message);
    }
  }

  /** A Qlik data connection: its name and its connection string. */
  datatype DataConnection = DataConnection(name: string, connectionString: string)

  /** A websocket connection to Qlik: whether it may be handed out again,
      and the data connections its app reports (None when none arrive). */
  class Connection {
    var isFree: bool
    const dataConnections: Option<seq<DataConnection>>

    constructor(dataConnections: Option<seq<DataConnection>>)
      ensures !isFree && this.dataConnections == dataConnections
    {
      isFree := false;
      this.dataConnections := dataConnections;
    }
  }

  /** The local file system: file contents by path and the directories
      that exist. A directory is known by its spelling. A missing source
      file, a missing target folder or an existing target fails with the
      message .NET gives. */
  datatype Disk = Disk(files: map<string, seq<byte>>, dirs: set<string>) {
    /** Directory.CreateDirectory: the folder exists afterwards, spelled
        with or without its trailing separator. */
    function CreateDirectory(path: string): (d: Disk)
      ensures d.files == files && path in d.dirs && Paths.DropLastSeparator(path) in d.dirs
    {
      this.(dirs := dirs + {path, Paths.DropLastSeparator(path)})
    }

    /** Whether the folder a file `path` lies in exists; a bare file name
        lies in the current folder, which does. */
    predicate HasFolderOf(path: string) {
      var d := Paths.GetDirectoryName(path);
      d == "" || d in dirs
    }

    /** The disk once the file `path` holds `data` (what File.WriteAllBytes
        stores when its folder exists). */
    function Write(path: string, data: seq<byte>): Disk
    {
      this.(files := files[path := data])
    }

    /** File.Delete */
    function Delete(path: string): Disk
    {
      this.(files := files - {path})
    }

    /** File.Copy(source, target, overwrite); a file copied onto itself
        is still open for reading when it is opened for writing, which
        fails with a sharing violation. */
    function Copy(source: string, target: string, overwrite: bool): (r: Result<Disk>)
      ensures r.Success? <==> source in files && HasFolderOf(target) && (overwrite || target !in files) && source != target
      ensures r.Success? ==> r.value == Write(target, files[source])
      ensures source in files && source == target ==> r.Failure?
    {
      if source !in files then Failure(FileNotFound(source))
      else if !HasFolderOf(target) then Failure(PathNotFound(target))
      else if target in files && !overwrite then Failure("The file '" + target + "' already exists.")
      else if source == target then Failure(InUse(target))
      else Success(Write(target, files[source]))
    }

    /** File.Move(source, target) */
    function Move(source: string, target: string): (r: Result<Disk>)
      ensures r.Success? <==> source in files && HasFolderOf(target) && target !in files
      ensures r.Success? ==> r.value.files == (files - {source})[target := files[source]]
    {
      if source !in files then Failure(FileNotFound(source))
      else if !HasFolderOf(target) then Failure(PathNotFound(target))
      else if target in files then Failure("Cannot create a file when that file already exists.")
      else Success(this.(files := (files - {source})[target := files[source]]))
    }
  }

  /** The message of the DirectoryNotFoundException for a file whose
      folder is missing. */
  function PathNotFound(path: string): string {
    "Could not find a part of the path '" + path + "'."
  }

  /** The message of the IOException for a file another handle holds. */
  function InUse(path: string): string {
    "The process cannot access the file '" + path + "' because it is being used by another process."
  }

  function FileNotFound(path: string): string {
    "Could not find file '" + path + "'."
  }

  /** The file system the sinks share. */
  class FileSystem {
    var disk: Disk

    constructor(disk: Disk)
      ensures this.disk == disk
    {
      this.disk := disk;
    }
  }
}
