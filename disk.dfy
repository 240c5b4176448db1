/** The file system the storage lives on, as a value: a map from paths to
    directories and text files. Every operation the storage code performs
    (`exists`, `is_dir`, `read_text`, `write_text`, `unlink`, `mkdir`,
    `rmdir`, `rename`, `os.scandir`) is a function from one file system to
    the next, failing with OSError where the operating system refuses. */
module Disk {
  import opened Wrappers

  /** A path as its components; the root is []. */
  type Path = seq<string>

  datatype Node = Dir | File(text: string)

  type Fs = map<Path, Node>

  function Parent(p: Path): Path
    requires p != []
  {
    p[..|p| - 1]
  }

  /** A well-formed tree: the root is a directory and every other entry
      sits in a directory. */
  predicate Tree(fs: Fs) {
    && [] in fs && fs[[]] == Dir
    && forall p :: p in fs && p != [] ==> Parent(p) in fs && fs[Parent(p)] == Dir
  }

  predicate IsDir(fs: Fs, p: Path) { p in fs && fs[p] == Dir }
  predicate IsFile(fs: Fs, p: Path) { p in fs && fs[p].File? }

  /** The names `os.scandir` lists for p. */
  function Children(fs: Fs, p: Path): set<string> {
    set q | q in fs && |q| == |p| + 1 && q[..|p|] == p :: q[|p|]
  }

  /** `read_text` / `read_bytes`: OSError unless p is a file. */
  function ReadText(fs: Fs, p: Path): (r: Result<string>)
    ensures r.Ok? <==> IsFile(fs, p)
    ensures r.Ok? ==> r.value == fs[p].text
    ensures r.Err? ==> r.error.OSError?
  {
    if IsFile(fs, p) then Ok(fs[p].text) else Err(OSError("not a file"))
  }

  /** The contents of p when it is a file (`exists() and is_file()`), else None. */
  function TextAt(fs: Fs, p: Path): (r: Option<string>)
    ensures r.Some? <==> IsFile(fs, p)
    ensures r.Some? ==> r.value == fs[p].text
  {
    if IsFile(fs, p) then Some(fs[p].text) else None
  }

  /** `write_text` / `write_bytes`: the parent must be a directory and p must
      not be one. */
  function WriteText(fs: Fs, p: Path, text: string): (r: Result<Fs>)
    ensures r.Ok? <==> p != [] && IsDir(fs, Parent(p)) && !IsDir(fs, p)
    ensures r.Ok? ==> r.value == fs[p := File(text)]
    ensures r.Err? ==> r.error.OSError?
  {
    if p != [] && IsDir(fs, Parent(p)) && !IsDir(fs, p) then Ok(fs[p := File(text)])
    else Err(OSError("cannot write"))
  }

  /** `unlink(missing_ok)`: removes a file; a missing path is an error unless
      missing_ok; a directory cannot be unlinked. */
  function Unlink(fs: Fs, p: Path, missingOk: bool): (r: Result<Fs>)
    ensures r.Ok? <==> IsFile(fs, p) || (p !in fs && missingOk)
    ensures r.Ok? ==> r.value == fs - {p}
    ensures r.Err? ==> r.error.OSError?
  {
    if IsFile(fs, p) then Ok(fs - {p})
    else if p !in fs && missingOk then Ok(fs)
    else Err(OSError("cannot unlink"))
  }

  /** `mkdir(parents, exist_ok)`: an existing path is an error unless
      exist_ok and it is a directory; a missing parent is created (as with
      exist_ok) when parents is set and is an error otherwise. */
  function Mkdir(fs: Fs, p: Path, parents: bool, existOk: bool): (r: Result<Fs>)
    ensures r.Ok? ==> IsDir(r.value, p)
    ensures r.Ok? ==> fs.Keys <= r.value.Keys && forall q :: q in fs ==> r.value[q] == fs[q]
    ensures r.Ok? ==> forall q :: q in r.value && q !in fs ==> r.value[q] == Dir && q <= p
    ensures r.Err? ==> r.error.OSError?
    decreases |p|
  {
    if p in fs then
      if existOk && fs[p] == Dir then Ok(fs) else Err(OSError("file exists"))
    else if p == [] then Err(OSError("no root"))
    else if IsDir(fs, Parent(p)) then Ok(fs[p := Dir])
    else if Parent(p) in fs then Err(OSError("not a directory"))
    else if !parents then Err(OSError("no such file or directory"))
    else
      var fs1 :- Mkdir(fs, Parent(p), true, true);
      Ok(fs1[p := Dir])
  }

  /** mkdir keeps the file system a tree. */
  lemma {:induction false} MkdirKeepsTree(fs: Fs, p: Path, parents: bool, existOk: bool)
    requires Tree(fs) && Mkdir(fs, p, parents, existOk).Ok?
    ensures Tree(Mkdir(fs, p, parents, existOk).value)
    decreases |p|
  {
    if p !in fs && p != [] && !IsDir(fs, Parent(p)) && Parent(p) !in fs && parents {
      MkdirKeepsTree(fs, Parent(p), true, true);
    }
  }

  /** `rmdir`: only an empty directory other than the root can be removed. */
  function Rmdir(fs: Fs, p: Path): (r: Result<Fs>)
    ensures r.Ok? <==> p != [] && IsDir(fs, p) && Children(fs, p) == {}
    ensures r.Ok? ==> r.value == fs - {p}
    ensures r.Err? ==> r.error.OSError?
  {
    if p != [] && IsDir(fs, p) && Children(fs, p) == {} then Ok(fs - {p}) else Err(OSError("cannot rmdir"))
  }

  lemma {:induction false} ChildListed(fs: Fs, q: Path)
    requires q in fs && q != []
    ensures q[|q| - 1] in Children(fs, Parent(q))
  {
    assert q[..|q| - 1] == Parent(q);
  }

  /** `os.scandir(p)`: the names of p's entries; OSError unless p is a directory. */
  function Scandir(fs: Fs, p: Path): (r: Result<set<string>>)
    ensures r.Ok? <==> IsDir(fs, p)
    ensures r.Ok? ==> r.value == Children(fs, p)
    ensures r.Err? ==> r.error.OSError?
  {
    if IsDir(fs, p) then Ok(Children(fs, p)) else Err(OSError("not a directory"))
  }

  /** Where the entry found at q after moving src to dst came from. */
  function Origin(fs: Fs, src: Path, dst: Path, q: Path): Path {
    if dst <= q && src + q[|dst|..] in fs then src + q[|dst|..] else q
  }

  /** `rename(src, dst)` of a directory within one parent: dst must not
      exist yet (renaming onto itself is a no-op). The subtree moves, as
      MoveSpec states. An existing empty directory at dst, which POSIX
      rename would replace, is refused here like any other existing dst. */
  function RenameDir(fs: Fs, src: Path, dst: Path): (r: Result<Fs>)
    ensures r.Ok? <==> (src == dst && IsDir(fs, src)) || (src != [] && dst != [] && Parent(src) == Parent(dst) && IsDir(fs, src) && dst !in fs)
    ensures r.Ok? && src == dst ==> r.value == fs
    ensures r.Ok? && src != dst ==> r.value == Move(fs, src, dst)
    ensures r.Err? ==> r.error.OSError?
  {
    if src == dst && IsDir(fs, src) then Ok(fs)
    else if src != [] && dst != [] && Parent(src) == Parent(dst) && IsDir(fs, src) && dst !in fs then
      Ok(Move(fs, src, dst))
    else Err(OSError("cannot rename"))
  }

  function Move(fs: Fs, src: Path, dst: Path): Fs {
    map q | q in MovedKeys(fs, src, dst) && Origin(fs, src, dst, q) in fs :: fs[Origin(fs, src, dst, q)]
  }

  /** After a move every entry under src sits at the same place under dst,
      entries outside both stay, and nothing else appears. */
  lemma {:induction false} MoveSpec(fs: Fs, src: Path, dst: Path)
    ensures forall q :: q in fs && src <= q ==> dst + q[|src|..] in Move(fs, src, dst) && Move(fs, src, dst)[dst + q[|src|..]] == fs[q]
    ensures forall q :: q in fs && !(src <= q) && !(dst <= q) ==> q in Move(fs, src, dst) && Move(fs, src, dst)[q] == fs[q]
    ensures forall q :: q in Move(fs, src, dst) ==> (q in fs && !(src <= q)) || (dst <= q && src + q[|dst|..] in fs)
  {
    forall q | q in fs && src <= q
      ensures dst + q[|src|..] in Move(fs, src, dst) && Move(fs, src, dst)[dst + q[|src|..]] == fs[q]
    {
      MoveCarries(fs, src, dst, q);
    }
    forall q | q in Move(fs, src, dst)
      ensures (q in fs && !(src <= q)) || (dst <= q && src + q[|dst|..] in fs)
    {
      MoveAddsNothing(fs, src, dst, q);
    }
  }

  /** The entry at q under src is found at the same place under dst. */
  lemma {:induction false} MoveCarries(fs: Fs, src: Path, dst: Path, q: Path)
    requires q in fs && src <= q
    ensures dst + q[|src|..] in Move(fs, src, dst) && Move(fs, src, dst)[dst + q[|src|..]] == fs[q]
  {
    var k := dst + q[|src|..];
    assert k[|dst|..] == q[|src|..];
    assert src + q[|src|..] == q;
    assert k in MovedKeys(fs, src, dst);
    assert Origin(fs, src, dst, k) == q;
  }

  /** Every path after a move was outside src, or comes from src. */
  lemma {:induction false} MoveAddsNothing(fs: Fs, src: Path, dst: Path, q: Path)
    requires q in Move(fs, src, dst)
    ensures (q in fs && !(src <= q)) || (dst <= q && src + q[|dst|..] in fs)
  {
    if !(q in fs && !(src <= q)) {
      var q' :| q' in fs && src <= q' && q == dst + q'[|src|..];
      assert q[|dst|..] == q'[|src|..];
      assert src + q'[|src|..] == q';
    }
  }

  /** The paths after the move: those outside src, and those under dst that
      come from src. */
  function MovedKeys(fs: Fs, src: Path, dst: Path): set<Path> {
    (set q | q in fs && !(src <= q)) + (set q | q in fs && src <= q :: dst + q[|src|..])
  }
}
