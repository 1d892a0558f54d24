/**
 * The part of Node's `fs` module the scaffold uses, over a simulated disk:
 * `existsSync`, `readFileSync`, `writeFileSync` and `mkdirSync` with
 * `recursive: true`. Paths are plain strings; a file's parent directory is
 * the text before the last `/`.
 */
module Disk {
  import opened Wrappers

  /** The error codes the four calls can throw here. */
  datatype FsError =
    | NoEntry        // ENOENT: the parent directory is missing, or there is nothing to read
    | IsDirectory    // EISDIR: reading or writing a directory as a file
    | NotDirectory   // ENOTDIR: a directory is wanted where a file is
    | AlreadyExists  // EEXIST: `mkdir` of a path that is a file

  /** Files with their text, and the set of directories. */
  datatype Disk = Disk(files: map<string, string>, dirs: set<string>)

  /**
   * The directory holding `p`: the text before its last `/`, or the empty
   * string (the root, or the directory relative paths start from) when the
   * only `/` is the first character or there is none.
   */
  function Parent(p: string): (r: string)
    ensures |r| <= |p| && r == p[..|r|]
    ensures r != [] ==> |r| < |p| && p[|r|] == '/'
    ensures forall k | |r| < k < |p| :: p[k] != '/'
    ensures r == [] ==> forall k | 0 < k < |p| :: p[k] != '/'
  {
    if p == [] then []
    else if p[|p| - 1] == '/' then p[..|p| - 1]
    else Parent(p[..|p| - 1])
  }

  /** `a/name` has the parent `a` when the name has no `/` of its own and `a` is not the root. */
  lemma ParentOfJoin(dir: string, name: string)
    requires dir != [] && forall k | 0 <= k < |name| :: name[k] != '/'
    ensures Parent(dir + "/" + name) == dir
  {
    var p := dir + "/" + name;
    var r := Parent(p);
    assert p[|dir|] == '/';
    assert |r| == |dir|;
    assert p[..|dir|] == dir;
  }

  /** A directory exists at `q`; the empty string stands for a root that always exists. */
  predicate IsDir(d: Disk, q: string)
  {
    q == [] || q in d.dirs
  }

  /**
   * A disk as the operating system keeps it: nothing is both a file and a
   * directory, and every file and every directory sits in an existing
   * directory.
   */
  predicate Valid(d: Disk)
  {
    && d.files.Keys !! d.dirs
    && (forall p | p in d.files :: IsDir(d, Parent(p)))
    && (forall q | q in d.dirs :: IsDir(d, Parent(q)))
  }

  /** On a consistent disk every directory above a directory exists. */
  lemma {:induction false} DirAbove(d: Disk, q: string, k: nat)
    requires Valid(d) && q in d.dirs && 0 < k < |q| && q[k] == '/'
    ensures q[..k] in d.dirs
    decreases |q|
  {
    var r := Parent(q);
    assert r != [];
    assert k <= |r|;
    if k < |r| {
      assert r[k] == q[k];
      DirAbove(d, r, k);
      assert r[..k] == q[..k];
    }
  }

  /** `fs.existsSync(p)`. */
  predicate Exists(d: Disk, p: string)
    ensures Exists(d, p) <==> Read(d, p).Ok? || Read(d, p) == Err(IsDirectory)
  {
    p in d.files || p in d.dirs
  }

  /**
   * `fs.readFileSync(p, 'utf-8')`: the text of a file; EISDIR for a
   * directory, ENOTDIR when the parent is a file, ENOENT otherwise.
   */
  function Read(d: Disk, p: string): (r: Result<string, FsError>)
    ensures r.Ok? <==> p in d.files
    ensures r.Ok? ==> r.value == d.files[p]
    ensures r.Err? ==>
      r.error == (if p in d.dirs then IsDirectory else if Parent(p) in d.files then NotDirectory else NoEntry)
  {
    if p in d.files then Ok(d.files[p])
    else if p in d.dirs then Err(IsDirectory)
    else if Parent(p) in d.files then Err(NotDirectory)
    else Err(NoEntry)
  }

  /**
   * `fs.writeFileSync(p, text)`: creates or replaces the file when its parent
   * directory exists and `p` is not a directory; nothing else on the disk
   * changes.
   */
  function Write(d: Disk, p: string, text: string): (r: Result<Disk, FsError>)
    ensures r.Ok? <==> p !in d.dirs && IsDir(d, Parent(p))
    ensures r.Ok? ==> r.value.files == d.files[p := text] && r.value.dirs == d.dirs
    ensures p in d.dirs ==> r == Err(IsDirectory)
    ensures p !in d.dirs && !IsDir(d, Parent(p)) ==>
      r == Err(if Parent(p) in d.files then NotDirectory else NoEntry)
  {
    if p in d.dirs then Err(IsDirectory)
    else if IsDir(d, Parent(p)) then Ok(d.(files := d.files[p := text]))
    else if Parent(p) in d.files then Err(NotDirectory)
    else Err(NoEntry)
  }

  /** The directories above `p`: every prefix of `p` that ends right before one of its `/`. */
  function Ancestors(p: string): set<string>
  {
    set k | 0 < k < |p| && p[k] == '/' :: p[..k]
  }

  /**
   * `fs.mkdirSync(p, { recursive: true })`: creates `p` and every missing
   * directory above it. It fails when `p` is a file, or when a file stands
   * where one of those directories should be; an existing directory is fine.
   */
  function MakeDirs(d: Disk, p: string): (r: Result<Disk, FsError>)
    ensures r.Ok? <==> p !in d.files && Ancestors(p) !! d.files.Keys
    ensures r.Ok? ==> r.value.files == d.files && r.value.dirs == d.dirs + {p} + Ancestors(p)
    ensures p in d.files ==> r == Err(AlreadyExists)
  {
    if p in d.files then Err(AlreadyExists)
    else if !(Ancestors(p) !! d.files.Keys) then Err(NotDirectory)
    else Ok(d.(dirs := d.dirs + {p} + Ancestors(p)))
  }

  /** A write keeps the disk consistent. */
  lemma WriteKeepsValid(d: Disk, p: string, text: string)
    requires Valid(d) && Write(d, p, text).Ok?
    ensures Valid(Write(d, p, text).value)
  {
    var e := Write(d, p, text).value;
    forall q | q in e.files ensures IsDir(e, Parent(q)) {
      if q != p { assert q in d.files; }
    }
  }

  /** Creating directories keeps the disk consistent. */
  lemma MakeDirsKeepsValid(d: Disk, p: string)
    requires Valid(d) && MakeDirs(d, p).Ok?
    ensures Valid(MakeDirs(d, p).value)
  {
    var e := MakeDirs(d, p).value;
    forall q | q in e.files ensures IsDir(e, Parent(q)) {
      assert q in d.files;
    }
    forall q | q in e.dirs ensures IsDir(e, Parent(q)) {
      var r := Parent(q);
      if q !in d.dirs && r != [] {
        assert q == p[..|q|];
        assert r == p[..|r|] && p[|r|] == '/' && 0 < |r| < |p|;
        assert r in Ancestors(p);
      }
    }
  }

  /**
   * Reading back a file just written gives the text written; every other
   * file reads as before, and so does every other path except one below the
   * new file, which now fails with ENOTDIR.
   */
  lemma ReadAfterWrite(d: Disk, p: string, text: string, q: string)
    requires Write(d, p, text).Ok?
    ensures Read(Write(d, p, text).value, p) == Ok(text)
    ensures q != p && Parent(q) != p ==> Read(Write(d, p, text).value, q) == Read(d, q)
    ensures q != p && q in d.files ==> Read(Write(d, p, text).value, q) == Ok(d.files[q])
    ensures q != p && Parent(q) == p && q !in d.files && q !in d.dirs ==>
      Read(Write(d, p, text).value, q) == Err(NotDirectory)
  {
  }

  /** After `mkdirSync` the directory exists, and so do all directories above it. */
  lemma MakeDirsMakesPath(d: Disk, p: string)
    requires MakeDirs(d, p).Ok?
    ensures IsDir(MakeDirs(d, p).value, p)
    ensures forall q | q in Ancestors(p) :: IsDir(MakeDirs(d, p).value, q)
  {
  }
}
