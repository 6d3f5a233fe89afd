/**
 * The machine the tool runs on, seen only through what the tool asks of it: whether a path
 * exists, environment variables, subprocess runs, file reads, downloads and file moves.
 * The answers are fixed oracles given at construction; the filesystem is the set of
 * existing paths, and a ghost trace records every action the tool performs, in order.
 */
module Host {
  import opened Wrappers
  import opened Strings

  /** One subprocess run: exit status, standard output as the chunks the reader received,
      and standard error. */
  datatype ProcessResult = ProcessResult(status: int, chunks: seq<string>, stderr: string) {
    /** Everything read from standard output. */
    function Stdout(): string {
      Join(chunks, "")
    }
  }

  /** What a `URLSession` download task reports: a transport error, the HTTP status, the
      temporary file's path, whether that file is still there, and the progress fractions
      the observer saw. */
  datatype Transfer = Transfer(failed: bool, httpStatus: int, location: Option<string>,
                               kept: bool, progress: seq<real>)

  /** How an operation ends: normally, through `fatalError`, or through `exit(code)`. */
  datatype Status = Ok | Fatal(message: string) | Exit(code: int, message: string) {
    predicate Halted() {
      !Ok?
    }
  }

  /** What a step of the tool ends with: its status, the actions it performed, in order, and
      the paths that exist afterwards. */
  datatype Outcome = Outcome(status: Status, actions: seq<Action>, files: set<string>)

  /** What the tool did to the machine. `Ran` holds the launch path followed by the arguments. */
  datatype Action =
    | Ran(argv: seq<string>)
    | Fetched(url: string)
    | Created(path: string)
    | Removed(path: string)
    | Moved(from: string, to: string)
    | Slept(seconds: nat)

  class Machine {
    /** The paths that exist. */
    var files: set<string>
    /** Every action performed so far. */
    ghost var trace: seq<Action>

    const env: map<string, string>
    const home: string
    const exec: seq<string> -> ProcessResult
    const transfer: string -> Transfer
    const contents: string -> Option<string>
    /** A query whose answer changes while the tool waits: the result of its `n`-th asking. */
    const poll: (seq<string>, nat) -> ProcessResult
    /** The paths an archive-extracting command leaves behind when it succeeds. */
    const unpacks: seq<string> -> set<string>

    constructor (files: set<string>, env: map<string, string>, home: string,
                 exec: seq<string> -> ProcessResult, transfer: string -> Transfer,
                 contents: string -> Option<string>, poll: (seq<string>, nat) -> ProcessResult,
                 unpacks: seq<string> -> set<string>)
      ensures this.files == files && this.trace == []
      ensures this.env == env && this.home == home && this.exec == exec
      ensures this.transfer == transfer && this.contents == contents && this.poll == poll
      ensures this.unpacks == unpacks
    {
      this.poll := poll;
      this.unpacks := unpacks;
      this.files := files;
      this.trace := [];
      this.env := env;
      this.home := home;
      this.exec := exec;
      this.transfer := transfer;
      this.contents := contents;
    }

    /** `FileManager.fileExists(atPath:)`. */
    predicate Exists(path: string)
      reads this
    {
      path in files
    }

    /** Launches a subprocess, drains its output and waits for it to exit. */
    method Run(argv: seq<string>) returns (r: ProcessResult)
      modifies this
      ensures r == exec(argv)
      ensures files == old(files) && trace == old(trace) + [Ran(argv)]
    {
      r := exec(argv);
      trace := trace + [Ran(argv)];
    }

    /** Runs an extracting command; on success the archive's contents exist. */
    method Unpack(argv: seq<string>) returns (r: ProcessResult)
      modifies this
      ensures r == exec(argv)
      ensures files == (if r.status == 0 then old(files) + unpacks(argv) else old(files))
      ensures trace == old(trace) + [Ran(argv)]
    {
      r := exec(argv);
      if r.status == 0 {
        files := files + unpacks(argv);
      }
      trace := trace + [Ran(argv)];
    }

    /** Runs a query whose answer depends on when it is asked; `n` numbers the asking. */
    method Poll(argv: seq<string>, n: nat) returns (r: ProcessResult)
      modifies this
      ensures r == poll(argv, n)
      ensures files == old(files) && trace == old(trace) + [Ran(argv)]
    {
      r := poll(argv, n);
      trace := trace + [Ran(argv)];
    }

    /** `sleep(seconds)`. */
    method Sleep(seconds: nat)
      modifies this
      ensures files == old(files) && trace == old(trace) + [Slept(seconds)]
    {
      trace := trace + [Slept(seconds)];
    }

    /** A download task run to completion: its temporary file exists exactly when it was kept. */
    method Fetch(url: string) returns (t: Transfer)
      modifies this
      ensures t == transfer(url)
      ensures files == AfterTransfer(old(files), t)
      ensures trace == old(trace) + [Fetched(url)]
    {
      t := transfer(url);
      files := AfterTransfer(files, t);
      trace := trace + [Fetched(url)];
    }

    method CreateDirectory(path: string)
      modifies this
      ensures files == old(files) + {path} && trace == old(trace) + [Created(path)]
    {
      files := files + {path};
      trace := trace + [Created(path)];
    }

    /** `try? removeItem(atPath:)`: succeeds or silently does nothing. */
    method Remove(path: string)
      modifies this
      ensures files == old(files) - {path} && trace == old(trace) + [Removed(path)]
    {
      files := files - {path};
      trace := trace + [Removed(path)];
    }

    /** `moveItem(atPath:toPath:)`: fails when the source is missing or the target exists. */
    method Move(from: string, to: string) returns (ok: bool)
      modifies this
      ensures ok <==> (from in old(files) && to !in old(files))
      ensures files == (if ok then old(files) - {from} + {to} else old(files))
      ensures trace == old(trace) + [Moved(from, to)]
    {
      ok := from in files && to !in files;
      if ok {
        files := files - {from} + {to};
      }
      trace := trace + [Moved(from, to)];
    }
  }

  /** The paths that exist once a transfer is over. */
  function AfterTransfer(files: set<string>, t: Transfer): (r: set<string>)
    ensures t.location.Some? ==> (t.location.value in r <==> t.kept)
    ensures forall p | p in files + r && (t.location.None? || p != t.location.value) :: p in files <==> p in r
  {
    match t.location
    case None => files
    case Some(p) => if t.kept then files + {p} else files - {p}
  }

  /** The command `Bash.which` runs to look a program up. */
  function WhichCommand(program: string): seq<string> {
    ["/bin/bash", "-c", "which " + program]
  }

  /** `Bash.which(_:) -> Bool`: the lookup exits with 0 and prints something. */
  method Which(m: Machine, program: string) returns (found: bool)
    modifies m
    ensures found <==> m.exec(WhichCommand(program)).status == 0
                       && m.exec(WhichCommand(program)).Stdout() != ""
    ensures m.files == old(m.files) && m.trace == old(m.trace) + [Ran(WhichCommand(program))]
  {
    var r := m.Run(WhichCommand(program));
    found := r.status == 0 && r.Stdout() != "";
  }

  /** The message `Bash.which` prints before giving up on `program`. */
  function NotFound(program: string): string {
    "\U{26D4}\U{FE0F} Unable to find program named " + program + ", please install it"
  }

  /** The lookup `r` found a program: it exited with 0 and printed something. */
  predicate WhichFound(r: ProcessResult) {
    r.status == 0 && r.Stdout() != ""
  }

  /** How `Bash.which` gives up when the lookup `r` did not find `program`. */
  function WhichFailure(r: ProcessResult, program: string): Status {
    if r.status != 0 then Fatal(NotFound(program)) else Exit(1, NotFound(program))
  }

  /** `Bash.which(_:) -> String`: a failed lookup is fatal, an empty answer exits with 1, and
      otherwise the answer without surrounding whitespace and newlines is the program's path. */
  method WhichPath(m: Machine, program: string) returns (st: Status, path: string)
    modifies m
    ensures var r := m.exec(WhichCommand(program));
      (r.status != 0 ==> st == Fatal(NotFound(program))) &&
      (r.status == 0 && r.Stdout() == "" ==> st == Exit(1, NotFound(program))) &&
      (r.status == 0 && r.Stdout() != "" ==> st == Ok && path == Trim(r.Stdout(), WhitespacesAndNewlines))
    ensures m.files == old(m.files) && m.trace == old(m.trace) + [Ran(WhichCommand(program))]
  {
    var r := m.Run(WhichCommand(program));
    path := "";
    if r.status != 0 {
      return Fatal(NotFound(program)), path;
    }
    var out := r.Stdout();
    if out == "" {
      return Exit(1, NotFound(program)), path;
    }
    st, path := Ok, Trim(out, WhitespacesAndNewlines);
  }
}
