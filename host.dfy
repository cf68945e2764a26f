/** The provisioner's collaborators, which it reaches only through calls: the
    packer communicator (upload and remote command), the local file system
    (os.Stat, tmp.File, reads, os.Remove), and the foreign functions
    interpolate.Render and guestexec.GenerateElevatedRunner.

    The communicator is scripted: it answers its calls, uploads and commands
    alike, from a finite queue of responses and logs every call it receives. */
module Host {
  import opened Outcomes
  import GoText

  /** One scripted answer: a transport failure, or a command's exit status. */
  datatype Response = Response(failed: bool, exitCode: int)

  /** What the remote side observed. */
  datatype Event =
    | Uploaded(remotePath: string, content: string)
    | Ran(command: string)

  /** The communicator's state: the answers still to give and the calls so far. */
  datatype Channel = Channel(responses: seq<Response>, log: seq<Event>)

  /** The local file system: file contents by path, and the names tmp.File
      would hand out, in order. */
  datatype Disk = Disk(files: map<string, string>, tempNames: seq<string>)

  datatype Env = Env(disk: Disk, channel: Channel)

  /** Foreign functions: interpolate.Render over a data map, and the elevated
      runner that rewrites a command for a user and password. None is an error. */
  datatype Oracles = Oracles(
    render: (string, map<string, string>) -> Option<string>,
    elevate: (string, string, string) -> Option<string>)

  /** The next answer; a communicator with no answer left fails every call. */
  function Next(responses: seq<Response>): (r: Response)
    ensures responses == [] ==> r.failed
    ensures responses != [] ==> r == responses[0]
  {
    if responses == [] then Response(true, -1) else responses[0]
  }

  function Rest(responses: seq<Response>): (r: seq<Response>)
    ensures responses != [] ==> |r| < |responses|
    ensures responses == [] ==> r == []
  {
    if responses == [] then [] else responses[1..]
  }

  /** The channel after running one command. */
  function Issued(ch: Channel, command: string): Channel {
    Channel(Rest(ch.responses), ch.log + [Ran(command)])
  }

  /** The channel after one upload. */
  function UploadedTo(ch: Channel, remotePath: string, content: string): Channel {
    Channel(Rest(ch.responses), ch.log + [Uploaded(remotePath, content)])
  }

  /** The scripted packer communicator. */
  class Communicator {
    var responses: seq<Response>
    var log: seq<Event>

    constructor (script: seq<Response>)
      ensures State() == Channel(script, [])
    {
      responses := script;
      log := [];
    }

    function State(): Channel
      reads this
    {
      Channel(responses, log)
    }

    /** communicator.Upload (provisioner.go:454). */
    method Upload(remotePath: string, content: string) returns (failed: bool)
      modifies this
      ensures State() == UploadedTo(old(State()), remotePath, content)
      ensures failed == Next(old(responses)).failed
    {
      failed := Next(responses).failed;
      responses := Rest(responses);
      log := log + [Uploaded(remotePath, content)];
    }

    /** RemoteCmd.RunWithUi followed by ExitStatus(). */
    method Run(command: string) returns (failed: bool, exitCode: int)
      modifies this
      ensures State() == Issued(old(State()), command)
      ensures failed == Next(old(responses)).failed
      ensures exitCode == Next(old(responses)).exitCode
    {
      var answer := Next(responses);
      failed, exitCode := answer.failed, answer.exitCode;
      responses := Rest(responses);
      log := log + [Ran(command)];
    }
  }

  /** The local file system the provisioner runs on. */
  class LocalFiles {
    var files: map<string, string>
    var tempNames: seq<string>

    constructor (files: map<string, string>, tempNames: seq<string>)
      ensures State() == Disk(files, tempNames)
    {
      this.files := files;
      this.tempNames := tempNames;
    }

    function State(): Disk
      reads this
    {
      Disk(files, tempNames)
    }

    /** os.Stat: whether the file exists, and FileInfo.Name(), its base name. */
    method Stat(path: string) returns (found: bool, name: string)
      ensures found <==> path in files
      ensures name == GoText.BaseName(path)
    {
      found := path in files;
      name := GoText.BaseName(path);
    }

    /** Seek to the start of an open file and read all of it. */
    method ReadAll(path: string) returns (content: string)
      requires path in files
      ensures content == files[path]
    {
      content := files[path];
    }

    /** tmp.File: creates an empty file under the next candidate name; it fails
        when no candidate is left, the candidate is empty or already exists. */
    method CreateTemp() returns (path: string, ok: bool)
      modifies this
      ensures ok <==> old(tempNames) != [] && old(tempNames)[0] != "" && old(tempNames)[0] !in old(files)
      ensures ok ==> path == old(tempNames)[0] && files == old(files)[path := ""]
      ensures !ok ==> path == "" && files == old(files)
      ensures tempNames == if old(tempNames) == [] then [] else old(tempNames)[1..]
    {
      if tempNames == [] {
        return "", false;
      }
      path := tempNames[0];
      tempNames := tempNames[1..];
      ok := path != "" && path !in files;
      if ok {
        files := files[path := ""];
      } else {
        path := "";
      }
    }

    /** Flushing a buffered writer into a file replaces its content. */
    method Write(path: string, content: string)
      modifies this
      ensures files == old(files)[path := content]
      ensures tempNames == old(tempNames)
    {
      files := files[path := content];
    }

    /** os.Remove of an existing file. */
    method Remove(path: string)
      modifies this
      ensures files == old(files) - {path}
      ensures tempNames == old(tempNames)
    {
      files := files - {path};
    }
  }

  function EnvOf(fs: LocalFiles, comm: Communicator): Env
    reads fs, comm
  {
    Env(fs.State(), comm.State())
  }
}
