/** What the toolkit sees of the machine it runs on. Every subprocess call, file-system
    query, clock reading and digest is a field of `Env`, so each operation is a
    function of its inputs. */
module Host {
  import opened Wrappers
  import opened Text

  /** An argument vector, as passed to `subprocess.run`. */
  type Command = seq<string>

  /** What `subprocess.run` gives back: the exit status and captured standard output, or
      `NotFound` when the program does not exist (Python raises `FileNotFoundError`, which
      no `except subprocess.CalledProcessError` catches). */
  datatype Run = Exited(code: int, stdout: string) | NotFound
  {
    /** `check=True` accepts the run: exit status 0. */
    predicate Succeeded() { Exited? && code == 0 }
  }

  /** A file-system node at a path: what `os.path.exists`, `isfile`, `isdir`, `stat` and a
      read of the file would report. `data` is the content (one `char` per byte); a file
      that cannot be opened has `readable == false`. `Special` is any other kind of node
      (a FIFO, a socket, a device). Times are epoch seconds; a directory or special node
      reports its own `st_size`. */
  datatype Node =
    | Missing
    | File(data: string, readable: bool, mtime: int, atime: int)
    | Dir(size: nat, mtime: int, atime: int)
    | Special(size: nat, mtime: int, atime: int)
  {
    predicate Exists() { !Missing? }
    predicate ReadableFile() { File? && readable }

    /** `os.stat(...).st_size` of an existing node. */
    function Size(): nat
      requires Exists()
    {
      if File? then |data| else size
    }
  }

  /** One step of `os.walk`: a directory (relative to the walk's top, "" for the top) and
      the names of the files directly in it, in listing order. */
  datatype WalkStep = WalkStep(dir: string, files: seq<string>)

  /** The result of reading a file: its content, or the message of the exception the read
      raised. */
  datatype Read = Text(text: string) | ReadError(message: string)

  /** One entry of the output directory as `rglob('*')` lists it. `topLevel` entries are
      the ones `glob('*')` also lists (their `relPath` is their `name`); `isFile` is
      `is_file()`. Sizes are bytes, `ctime` and `mtime` epoch seconds. The entry is read
      two ways: `binary` is what `open(path, 'rb').read()` gives (one `char` per byte),
      `decoded` what `open(path, 'r').read()` gives (decoded with the platform's default
      encoding and with newlines translated), so a file can hash and still fail to decode. */
  datatype StoreEntry = StoreEntry(
    name: string, relPath: string, topLevel: bool, isFile: bool,
    size: nat, ctime: int, mtime: int, binary: Read, decoded: Read)

  /** The two hex digests, as uninterpreted string functions. */
  datatype Hasher = Hasher(md5: string -> string, sha256: string -> string)

  /** The oracles. `now` is `datetime.now().isoformat()`, `stamp` its
      `strftime("%Y%m%d_%H%M%S")`, `clock` its epoch seconds and `iso` turns epoch
      seconds into `datetime.fromtimestamp(...).isoformat()`. `store` lists the output
      directory. `bufferedDigest` is what the text report's inline `Report hash:` line
      shows: it hashes a file that is still open for buffered writing, so its value
      depends on what has been flushed and is left unconstrained. */
  datatype Env = Env(
    run: Command -> Run,
    fs: string -> Node,
    walk: string -> seq<WalkStep>,
    rglob: string -> seq<string>,
    home: string,
    now: string,
    stamp: string,
    clock: int,
    iso: int -> string,
    hasher: Hasher,
    store: seq<StoreEntry>,
    bufferedDigest: string)

  /** The resolved configuration; each field is `None` when the key is absent. */
  datatype Config = Config(
    outputDirectory: Option<string>,
    whitelistIps: Option<seq<string>>,
    maxLogSizeMb: Option<int>,
    version: Option<string>)

  function OutputDir(c: Config): string
  {
    if c.outputDirectory.Some? then c.outputDirectory.value else "output"
  }

  function Whitelist(c: Config): seq<string>
  {
    if c.whitelistIps.Some? then c.whitelistIps.value else []
  }

  function Version(c: Config): string
  {
    if c.version.Some? then c.version.value else "Unknown"
  }

  /** Every collector tests `self.platform == 'linux'`; any other name takes the Windows branch. */
  predicate IsLinux(platform: string)
  {
    platform == "linux"
  }

  /** `Path(a) / b` rendered as a string. */
  function PathJoin(a: string, b: string): string
  {
    a + "/" + b
  }

  /** The heading rules the artifacts use. */
  function Rule60(): string { Repeat('=', 60) }
  function Dash40(): string { Repeat('-', 40) }
  function Rule40(): string { Repeat('=', 40) }

  /** A file an operation writes into the output directory, and what it holds. */
  datatype Artifact = Artifact(path: string, content: string)

  /** `repr` of an argument list, as `CalledProcessError` prints it (arguments are
      assumed to hold no quote or backslash). */
  function ListRepr(cmd: Command): string
  {
    "[" + Join(", ", QuoteAll(cmd)) + "]"
  }

  function QuoteAll(cmd: Command): seq<string>
  {
    if cmd == [] then [] else ["'" + cmd[0] + "'"] + QuoteAll(cmd[1..])
  }

  /** `str(CalledProcessError)` for a command that exited with `code`; a negative code is
      a signal. */
  function ErrorText(cmd: Command, code: int): string
  {
    if code < 0 then "Command '" + ListRepr(cmd) + "' died with signal " + NatToString(-code) + "."
    else "Command '" + ListRepr(cmd) + "' returned non-zero exit status " + NatToString(code) + "."
  }
}
