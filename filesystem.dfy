/** The file system as the handlers see it: a map from a path string, exactly
    as the handler hands it to the operating system, to a file with text
    contents or a directory. Path resolution by the operating system is
    folded into the map: no normalisation is done by the code itself. */
module FileSystem {
  import opened PyValues

  datatype Node = File(text: string) | Dir

  type Fs = map<string, Node>

  /** `os.path.exists(p)`. */
  predicate Exists(fs: Fs, p: string) {
    p in fs
  }

  /** `os.path.isdir(p)`. */
  predicate IsDir(fs: Fs, p: string) {
    p in fs && fs[p].Dir?
  }

  function Quoted(p: string): string {
    "'" + p + "'"
  }

  /** `open(p).read()` in text mode. */
  function ReadText(fs: Fs, p: string): (r: Result<string>)
    ensures r.Ok? <==> p in fs && fs[p].File?
    ensures r.Ok? ==> r.value == fs[p].text
    ensures p !in fs ==> r.Err? && r.error.FileNotFoundError?
    ensures IsDir(fs, p) ==> r.Err? && r.error.IsADirectoryError?
  {
    if p !in fs then Err(FileNotFoundError("[Errno 2] No such file or directory: " + Quoted(p)))
    else if fs[p].Dir? then Err(IsADirectoryError("[Errno 21] Is a directory: " + Quoted(p)))
    else Ok(fs[p].text)
  }

  /** `open(p, "w").write(text)`: the file at `p` holds `text` afterwards and
      nothing else changes; a directory at `p` cannot be opened. */
  function WriteText(fs: Fs, p: string, text: string): (r: Result<Fs>)
    ensures r.Ok? <==> !IsDir(fs, p)
    ensures r.Ok? ==> ReadText(r.value, p) == Ok(text)
    ensures r.Ok? ==> forall q :: q != p ==> (q in r.value <==> q in fs)
    ensures r.Ok? ==> forall q :: q in fs && q != p ==> r.value[q] == fs[q]
  {
    if IsDir(fs, p) then Err(IsADirectoryError("[Errno 21] Is a directory: " + Quoted(p)))
    else Ok(fs[p := File(text)])
  }

  /** `Path(src).rename(dst)` for an existing `src`. */
  function Rename(fs: Fs, src: string, dst: string): (r: Fs)
    requires src in fs
    ensures dst in r && r[dst] == fs[src]
    ensures src != dst ==> src !in r
    ensures forall q :: q != src && q != dst ==> (q in r <==> q in fs)
    ensures forall q :: q in fs && q != src && q != dst ==> r[q] == fs[q]
  {
    (fs - {src})[dst := fs[src]]
  }
}
