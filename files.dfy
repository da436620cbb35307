/**
 * The file system as the report and the mailer see it: a map from existing
 * paths to their contents. Temporary files get fresh names from a counter,
 * standing in for `tempfile.NamedTemporaryFile(delete=False)`.
 */
module Files {
  import opened Wrappers
  import opened Analyses
  import opened Document

  datatype Path = Temp(id: nat) | Named(name: string)

  /** File contents: a saved chart, a written report, or any other bytes. */
  datatype Blob = PngImage(chart: Chart) | PdfDocument(pages: seq<Page>) | Bytes(data: seq<int>)

  class FileSystem {
    var files: map<Path, Blob>
    var nextTemp: nat

    /** No temporary name at or past the counter is taken yet. */
    ghost predicate Valid()
      reads this
    {
      forall p :: p in files && p.Temp? ==> p.id < nextTemp
    }

    /** A file system holding the given named files and no temporary file. */
    constructor (named: map<string, Blob>)
      ensures Valid()
      ensures files == map n | n in named :: Named(n) := named[n]
      ensures nextTemp == 0
    {
      files := map n | n in named :: Named(n) := named[n];
      nextTemp := 0;
    }

    /** Creates a new temporary file holding `b` and returns its path. */
    method CreateTemp(b: Blob) returns (p: Path)
      requires Valid()
      modifies this
      ensures Valid()
      ensures p == Temp(old(nextTemp)) && p !in old(files)
      ensures files == old(files)[p := b]
      ensures nextTemp == old(nextTemp) + 1
    {
      p := Temp(nextTemp);
      files := files[p := b];
      nextTemp := nextTemp + 1;
    }

    /** `os.path.exists`. */
    method Exists(p: Path) returns (e: bool)
      ensures e <==> p in files
    {
      e := p in files;
    }

    /** `os.remove`: the path must exist. */
    method Remove(p: Path)
      requires Valid()
      requires p in files
      modifies this`files
      ensures Valid()
      ensures files == old(files) - {p}
    {
      files := files - {p};
    }

    /** Writes (creating or overwriting) a named file. */
    method Write(p: Path, b: Blob)
      requires Valid()
      requires p.Named?
      modifies this`files
      ensures Valid()
      ensures files == old(files)[p := b]
    {
      files := files[p := b];
    }

    /** Reads a file; `None` when it does not exist (opening it would raise). */
    method Read(p: Path) returns (r: Option<Blob>)
      ensures r == if p in files then Some(files[p]) else None
    {
      r := if p in files then Some(files[p]) else None;
    }
  }
}
