/**
 * The outside world of the driver. Files are a set of existing paths; every external
 * program (`which`, `bash -c "source … && env"`, tleap, the MD engines) is a Process whose
 * exit status, standard output and created files come from a World oracle.
 */
module Host {
  import opened Wrappers
  import opened Documents

  /** A child process: argument vector, working directory and environment (None: inherited). */
  datatype Process = Process(argv: seq<string>, cwd: Option<string>, env: Option<map<string, string>>)

  /** What running a process does, and what reading a file yields. */
  datatype World = World(
    exitOf: Process -> int,
    creates: Process -> set<string>,
    stdoutOf: Process -> string,
    read: string -> string)

  /** The files a run of `ps`, in order, creates. */
  function CreatedBy(ps: seq<Process>, world: World): set<string> {
    if ps == [] then {} else world.creates(ps[0]) + CreatedBy(ps[1..], world)
  }

  lemma {:induction false} CreatedByAppend(a: seq<Process>, b: seq<Process>, world: World)
    ensures CreatedBy(a + b, world) == CreatedBy(a, world) + CreatedBy(b, world)
    decreases |a|
  {
    if a == [] {
      assert a + b == b;
    } else {
      assert (a + b)[1..] == a[1..] + b;
      CreatedByAppend(a[1..], b, world);
    }
  }

  /** The machine the driver runs on: its files, the documents it wrote, the processes it ran. */
  class Machine {
    var files: set<string>
    var written: map<string, Document>
    var spawned: seq<Process>

    constructor (files: set<string>)
      ensures this.files == files && written == map[] && spawned == []
    {
      this.files := files;
      written := map[];
      spawned := [];
    }

    /**
     * `Path.mkdir(parents=True, exist_ok=True)`, recording only the directory itself: an
     * existing directory is reused. Parents and the failure on an existing regular file
     * are not modelled.
     */
    method MakeDirs(path: string)
      modifies this
      ensures files == old(files) + {path}
      ensures written == old(written) && spawned == old(spawned)
    {
      files := files + {path};
    }

    /** `Path.write_text`: creates or overwrites one file. */
    method WriteText(path: string, content: Document)
      modifies this
      ensures files == old(files) + {path}
      ensures written == old(written)[path := content]
      ensures spawned == old(spawned)
    {
      files := files + {path};
      written := written[path := content];
    }

    /** `subprocess.run`: runs to completion and reports the exit status and stdout. */
    method Spawn(p: Process, world: World) returns (exit: int, stdout: string)
      modifies this
      ensures spawned == old(spawned) + [p]
      ensures files == old(files) + world.creates(p)
      ensures written == old(written)
      ensures exit == world.exitOf(p) && stdout == world.stdoutOf(p)
    {
      spawned := spawned + [p];
      files := files + world.creates(p);
      exit, stdout := world.exitOf(p), world.stdoutOf(p);
    }
  }
}
