/**
 * Steps 3 to 7 of the scaffold (index.js:84-144) as functions from the disk
 * before a step to the disk after it, and `Run`, which performs them in
 * order and stops at the first exception, as the `.then` callback does
 * (a throw in it skips the remaining steps and lands in `.catch`).
 * Steps 1 and 2 run npm; they are the command list `Commands`.
 */
module Steps {
  import opened Wrappers
  import opened Text
  import opened Names
  import opened Manifest
  import opened Html
  import opened Disk

  // ---- The files' texts ----

  /** What `createCssFile` writes (index.js:20-24): the three Tailwind directives, one per line. */
  const CssContent := "\n@tailwind base;\n" + "@tailwind components;\n" + "@tailwind utilities;\n"

  /** Both configuration files open with the same line. */
  const ConfigOpen := "module.exports = {\n"

  /** The Tailwind configuration (index.js:87-97), without the padding of its template literal. */
  const TailwindConfig := ConfigOpen + TailwindConfigBody + "};"
  const TailwindConfigBody :=
    "  content: [\n"
    + "    './src/**/*.{html,js,jsx,ts,tsx}', " + "// All files in the src directory\n"
    + "    './*.html', " + "// Any HTML files in the root directory\n"
    + "    './**/*.html', " + "// Any HTML files in subdirectories\n"
    + "  ],\n" + "  theme: {\n" + "    extend: {},\n" + "  },\n" + "  plugins: [],\n"

  /** The PostCSS configuration (index.js:111-116), without the padding of its template literal. */
  const PostcssConfig := ConfigOpen + PostcssConfigBody + "}"
  const PostcssConfigBody :=
    "  plugins: {\n" + "    tailwindcss: {},\n" + "    autoprefixer: {},\n" + "  },\n"

  /** Both template literals open with a line break and close with a line break and four spaces. */
  const TemplateOpen := "\n"
  const TemplateClose := "\n    "

  const TailwindConfigTemplate := TemplateOpen + TailwindConfig + TemplateClose
  const PostcssConfigTemplate := TemplateOpen + PostcssConfig + TemplateClose

  /** A configuration text starts and ends with its first and last line's non-blank characters. */
  lemma ConfigEnds(body: string, close: string)
    requires close != [] && !IsSpace(close[|close| - 1])
    ensures var c := ConfigOpen + body + close;
      c != [] && !IsSpace(c[0]) && !IsSpace(c[|c| - 1])
  {
    var c := ConfigOpen + body + close;
    assert c[0] == ConfigOpen[0] == 'm';
    assert c[|c| - 1] == close[|close| - 1];
  }

  /** tailwind.config.js is written trimmed: exactly the text between the template's padding. */
  lemma TailwindConfigTrimmed()
    ensures Trim(TailwindConfigTemplate) == TailwindConfig
  {
    ConfigEnds(TailwindConfigBody, "};");
    assert AllSpace(TemplateOpen) && AllSpace(TemplateClose);
    TrimPadded(TemplateOpen, TailwindConfig, TemplateClose);
  }

  /** postcss.config.js is written trimmed: exactly the text between the template's padding. */
  lemma PostcssConfigTrimmed()
    ensures Trim(PostcssConfigTemplate) == PostcssConfig
  {
    ConfigEnds(PostcssConfigBody, "}");
    assert AllSpace(TemplateOpen) && AllSpace(TemplateClose);
    TrimPadded(TemplateOpen, PostcssConfig, TemplateClose);
  }

  // ---- Paths under the working directory ----

  function ManifestPath(cwd: string): string { Join(cwd, ManifestName) }
  function TailwindConfigPath(cwd: string): string { Join(cwd, TailwindConfigName) }
  function PostcssConfigPath(cwd: string): string { Join(cwd, PostcssConfigName) }
  function HtmlPath(cwd: string, htmlName: string): string { Join(cwd, htmlName) }

  // ---- Steps 1 and 2: npm ----

  const NpmInit := "npm init -y"
  const NpmInstall := "npm install -D tailwindcss postcss autoprefixer"

  /**
   * The npm commands run before any file is written (index.js:75-82): `npm
   * init -y` only when there is no package.json, then the install. Either
   * one failing ends the process (`process.exit(1)`) before step 3.
   */
  function Commands(manifestExists: bool): (r: seq<string>)
    ensures r != [] && r[|r| - 1] == NpmInstall
    ensures NpmInit in r <==> !manifestExists
    ensures !manifestExists ==> r[0] == NpmInit
    ensures |r| == if manifestExists then 1 else 2
  {
    if manifestExists then [NpmInstall] else [NpmInit, NpmInstall]
  }

  // ---- Steps 3 to 7 ----

  /** Why the callback stopped: an `fs` error, `JSON.parse` rejecting the manifest, or the TypeError of step 6. */
  datatype Failure =
    | FileError(code: FsError)
    | ManifestSyntax
    | ManifestShape(error: ManifestError)

  /** The disk after a step, and the exception the step threw if it threw one. */
  datatype Outcome = Outcome(disk: Disk, failure: Option<Failure>)

  /** The outcome of one `fs` call that changes the disk: the new disk, or the old one and the error. */
  function Written(d: Disk, r: Result<Disk, FsError>): (o: Outcome)
    ensures r.Ok? ==> o == Outcome(r.value, None)
    ensures r.Err? ==> o == Outcome(d, Some(FileError(r.error)))
  {
    match r
    case Ok(e) => Outcome(e, None)
    case Err(c) => Outcome(d, Some(FileError(c)))
  }

  /**
   * `e` is `d` with at most the files in `written` created or replaced and
   * the directories in `made` added: nothing is removed and every other
   * file keeps its text.
   */
  predicate Confined(d: Disk, e: Disk, written: set<string>, made: set<string>)
  {
    && d.dirs <= e.dirs <= d.dirs + made
    && d.files.Keys <= e.files.Keys <= d.files.Keys + written
    && e.files - written == d.files - written
  }

  /** Two confined changes in a row are confined by anything that covers what each may touch. */
  lemma ConfinedChain(d: Disk, e: Disk, f: Disk, w1: set<string>, m1: set<string>, w2: set<string>, m2: set<string>,
                      w: set<string>, m: set<string>)
    requires Confined(d, e, w1, m1) && Confined(e, f, w2, m2)
    requires w1 + w2 <= w && m1 + m2 <= m
    ensures Confined(d, f, w, m)
  {
    forall q | q in f.files - w ensures q in d.files - w && (f.files - w)[q] == (d.files - w)[q] {
      assert q in e.files - w2 && q in e.files - w1;
    }
    assert f.files - w == d.files - w;
  }

  /** Step 3 (index.js:85-99): tailwind.config.js, trimmed. */
  function ConfigStep(d: Disk, cwd: string): (o: Outcome)
    ensures Confined(d, o.disk, {TailwindConfigPath(cwd)}, {})
    ensures o.failure.Some? ==> o.disk == d
  {
    Written(d, Write(d, TailwindConfigPath(cwd), Trim(TailwindConfigTemplate)))
  }

  /**
   * Step 4 (index.js:102-107): the CSS directory is created, with its
   * parents, only when nothing exists at its path; then `createCssFile`
   * writes the directives.
   */
  function CssStep(d: Disk, cwd: string, cssName: string): (o: Outcome)
    ensures Confined(d, o.disk, {CssFilePath(cwd, cssName)}, {CssDir(cwd)} + Ancestors(CssDir(cwd)))
    ensures o.failure.Some? ==> o.disk.files == d.files
  {
    var dir := CssDir(cwd);
    if !Exists(d, dir) then
      match MakeDirs(d, dir)
      case Err(c) => Outcome(d, Some(FileError(c)))
      case Ok(e) => Written(e, Write(e, CssFilePath(cwd, cssName), CssContent))
    else
      Written(d, Write(d, CssFilePath(cwd, cssName), CssContent))
  }

  /** Step 5 (index.js:109-118): postcss.config.js, trimmed. */
  function PostcssStep(d: Disk, cwd: string): (o: Outcome)
    ensures Confined(d, o.disk, {PostcssConfigPath(cwd)}, {})
    ensures o.failure.Some? ==> o.disk == d
  {
    Written(d, Write(d, PostcssConfigPath(cwd), Trim(PostcssConfigTemplate)))
  }

  /**
   * Step 6 (index.js:121-129): read package.json, parse it, set its
   * `scripts`, write it back serialised. `parse` stands for `JSON.parse`
   * (None when it throws) and `stringify` for `JSON.stringify(…, null, 2)`.
   */
  function ManifestStep(d: Disk, cwd: string, cssName: string,
                        parse: string -> Option<Value>, stringify: Value -> string): (o: Outcome)
    ensures Confined(d, o.disk, {ManifestPath(cwd)}, {})
    ensures o.failure.Some? ==> o.disk == d
  {
    var path := ManifestPath(cwd);
    match Read(d, path)
    case Err(c) => Outcome(d, Some(FileError(c)))
    case Ok(text) =>
      match parse(text)
      case None => Outcome(d, Some(ManifestSyntax))
      case Some(doc) =>
        match UpdateManifest(doc, cssName)
        case Err(e) => Outcome(d, Some(ManifestShape(e)))
        case Ok(updated) => Written(d, Write(d, path, stringify(updated)))
  }

  /**
   * Step 7 (index.js:132-144): an existing HTML file is read and rewritten
   * with the patch; otherwise `createHtmlFile` writes the template.
   */
  function HtmlStep(d: Disk, cwd: string, htmlName: string): (o: Outcome)
    ensures Confined(d, o.disk, {HtmlPath(cwd, htmlName)}, {})
    ensures o.failure.Some? ==> o.disk == d
  {
    var path := HtmlPath(cwd, htmlName);
    if Exists(d, path) then
      match Read(d, path)
      case Err(c) => Outcome(d, Some(FileError(c)))
      case Ok(html) => Written(d, Write(d, path, Patch(html)))
    else
      Written(d, Write(d, path, Template))
  }

  /**
   * The `.then` callback after npm (index.js:67-146): the names are resolved
   * from the two answers and steps 3 to 7 run in order; the first step that
   * throws ends the run, leaving the disk as that step left it.
   */
  function Run(d: Disk, cwd: string, cssAnswer: string, htmlAnswer: string,
               parse: string -> Option<Value>, stringify: Value -> string): (o: Outcome)
    ensures Confined(d, o.disk, Touched(cwd, CssFileName(cssAnswer), HtmlFileName(htmlAnswer)),
                     {CssDir(cwd)} + Ancestors(CssDir(cwd)))
  {
    FromConfig(d, cwd, CssFileName(cssAnswer), HtmlFileName(htmlAnswer), parse, stringify)
  }

  /** Steps 3 to 7, once the names are resolved. */
  function FromConfig(d: Disk, cwd: string, cssName: string, htmlName: string,
                      parse: string -> Option<Value>, stringify: Value -> string): (r: Outcome)
    ensures Confined(d, r.disk, Touched(cwd, cssName, htmlName), {CssDir(cwd)} + Ancestors(CssDir(cwd)))
  {
    var o := ConfigStep(d, cwd);
    if o.failure.Some? then o
    else
      var r := FromCss(o.disk, cwd, cssName, htmlName, parse, stringify);
      ConfinedChain(d, o.disk, r.disk, {TailwindConfigPath(cwd)}, {},
                    {CssFilePath(cwd, cssName), PostcssConfigPath(cwd), ManifestPath(cwd), HtmlPath(cwd, htmlName)},
                    {CssDir(cwd)} + Ancestors(CssDir(cwd)),
                    Touched(cwd, cssName, htmlName), {CssDir(cwd)} + Ancestors(CssDir(cwd)));
      r
  }
  /** Steps 4 to 7. */
  function FromCss(d: Disk, cwd: string, cssName: string, htmlName: string,
                   parse: string -> Option<Value>, stringify: Value -> string): (r: Outcome)
    ensures Confined(d, r.disk, {CssFilePath(cwd, cssName), PostcssConfigPath(cwd), ManifestPath(cwd), HtmlPath(cwd, htmlName)},
                     {CssDir(cwd)} + Ancestors(CssDir(cwd)))
  {
    var o := CssStep(d, cwd, cssName);
    if o.failure.Some? then o
    else
      var r := FromPostcss(o.disk, cwd, cssName, htmlName, parse, stringify);
      ConfinedChain(d, o.disk, r.disk, {CssFilePath(cwd, cssName)}, {CssDir(cwd)} + Ancestors(CssDir(cwd)),
                    {PostcssConfigPath(cwd), ManifestPath(cwd), HtmlPath(cwd, htmlName)}, {},
                    {CssFilePath(cwd, cssName), PostcssConfigPath(cwd), ManifestPath(cwd), HtmlPath(cwd, htmlName)},
                    {CssDir(cwd)} + Ancestors(CssDir(cwd)));
      r
  }

  /** Steps 5 to 7. */
  function FromPostcss(d: Disk, cwd: string, cssName: string, htmlName: string,
                       parse: string -> Option<Value>, stringify: Value -> string): (r: Outcome)
    ensures Confined(d, r.disk, {PostcssConfigPath(cwd), ManifestPath(cwd), HtmlPath(cwd, htmlName)}, {})
  {
    var o := PostcssStep(d, cwd);
    if o.failure.Some? then o
    else
      var r := FromManifest(o.disk, cwd, cssName, htmlName, parse, stringify);
      ConfinedChain(d, o.disk, r.disk, {PostcssConfigPath(cwd)}, {}, {ManifestPath(cwd), HtmlPath(cwd, htmlName)}, {},
                    {PostcssConfigPath(cwd), ManifestPath(cwd), HtmlPath(cwd, htmlName)}, {});
      r
  }

  /** Steps 6 and 7. */
  function FromManifest(d: Disk, cwd: string, cssName: string, htmlName: string,
                        parse: string -> Option<Value>, stringify: Value -> string): (r: Outcome)
    ensures Confined(d, r.disk, {ManifestPath(cwd), HtmlPath(cwd, htmlName)}, {})
  {
    var o := ManifestStep(d, cwd, cssName, parse, stringify);
    if o.failure.Some? then o
    else
      var r := HtmlStep(o.disk, cwd, htmlName);
      ConfinedChain(d, o.disk, r.disk, {ManifestPath(cwd)}, {}, {HtmlPath(cwd, htmlName)}, {},
                    {ManifestPath(cwd), HtmlPath(cwd, htmlName)}, {});
      r
  }

  /**
   * The build command writes the stylesheet that the page links: its output
   * path is dist/tailwind.css whatever the CSS name, and the link the patch
   * and the template use points at `./` followed by that same path.
   */
  lemma LinkNamesBuildOutput(cssName: string)
    ensures var cmd := BuildCommand(cssName); cmd[|cmd| - |OutputPath|..] == OutputPath
    ensures OccursAt(LinkTag, "./" + OutputPath, |"<link href=\""|)
  {
    var cmd := BuildCommand(cssName);
    assert cmd[|cmd| - |OutputPath|..] == (OutputFlag + OutputPath)[|OutputFlag|..];
    assert LinkTag == "<link href=\"" + ("./" + OutputPath) + "\" rel=\"stylesheet\">";
    OccursBetween("<link href=\"", "./" + OutputPath, "\" rel=\"stylesheet\">");
  }

  // ---- What each step does ----

  /** A text with no `/`: a single name, not a path. */
  predicate PlainName(name: string)
  {
    forall k | 0 <= k < |name| :: name[k] != '/'
  }

  /**
   * Step 3 writes tailwind.config.js, trimmed, when its directory exists and
   * no directory is in the way, and changes nothing else; otherwise it
   * changes nothing.
   */
  lemma ConfigStepResult(d: Disk, cwd: string)
    ensures var p, o := TailwindConfigPath(cwd), ConfigStep(d, cwd);
      && (o.failure.None? <==> p !in d.dirs && IsDir(d, Parent(p)))
      && (o.failure.None? ==> o.disk == Disk(d.files[p := TailwindConfig], d.dirs))
      && (o.failure.Some? ==> o.disk == d)
  {
    TailwindConfigTrimmed();
  }

  /** Step 5 does the same with postcss.config.js. */
  lemma PostcssStepResult(d: Disk, cwd: string)
    ensures var p, o := PostcssConfigPath(cwd), PostcssStep(d, cwd);
      && (o.failure.None? <==> p !in d.dirs && IsDir(d, Parent(p)))
      && (o.failure.None? ==> o.disk == Disk(d.files[p := PostcssConfig], d.dirs))
      && (o.failure.Some? ==> o.disk == d)
  {
    PostcssConfigTrimmed();
  }

  /**
   * Step 4's guard and `mkdirSync` leave the CSS directory usable: something
   * already exists at its path, or no file stands where a directory above
   * it goes.
   */
  predicate CssDirMade(d: Disk, cwd: string)
  {
    Exists(d, CssDir(cwd)) || Ancestors(CssDir(cwd)) !! d.files.Keys
  }

  /** The disk `createCssFile` writes into: as it was, or with the CSS directory and those above it created. */
  function AfterGuard(d: Disk, cwd: string): Disk
  {
    var dir := CssDir(cwd);
    if Exists(d, dir) then d else Disk(d.files, d.dirs + {dir} + Ancestors(dir))
  }

  /**
   * Step 4. `mkdirSync` runs only when nothing exists at the CSS directory's
   * path, and then creates it with the directories above it, failing with
   * ENOTDIR when a file stands in the way. The CSS file is then written
   * where its own parent directory must already exist: for a CSS name with
   * a `/` that is a directory below `src/styles`, which nothing creates. On
   * success the CSS file holds the directives and no other file changes; on
   * failure no file changes, though directories `mkdirSync` made stay.
   */
  lemma CssStepResult(d: Disk, cwd: string, cssName: string)
    requires Valid(d) && cwd != []
    ensures var dir, p, o, e := CssDir(cwd), CssFilePath(cwd, cssName), CssStep(d, cwd, cssName), AfterGuard(d, cwd);
      && (Exists(d, dir) ==> o.disk.dirs == d.dirs)
      && (!Exists(d, dir) && o.failure.None? ==> o.disk.dirs == d.dirs + {dir} + Ancestors(dir))
      && (!CssDirMade(d, cwd) ==> o == Outcome(d, Some(FileError(NotDirectory))))
      && (o.failure.None? <==> CssDirMade(d, cwd) && p !in d.dirs && IsDir(e, Parent(p)))
      && (CssDirMade(d, cwd) && p in d.dirs ==> o.failure == Some(FileError(IsDirectory)))
      && (CssDirMade(d, cwd) && p !in d.dirs && !IsDir(e, Parent(p)) ==>
            o.failure == Some(FileError(if Parent(p) in d.files then NotDirectory else NoEntry)))
      && (o.failure.None? ==> o.disk.files == d.files[p := CssContent] && dir in o.disk.dirs)
      && (o.failure.Some? ==> o.disk.files == d.files)
      && Valid(o.disk)
  {
    var dir, p := CssDir(cwd), CssFilePath(cwd, cssName);
    var e := AfterGuard(d, cwd);
    assert |p| > |dir|;
    assert forall q | q in Ancestors(dir) :: |q| < |dir|;
    assert p !in e.dirs <==> p !in d.dirs;
    if !Exists(d, dir) && MakeDirs(d, dir).Ok? {
      assert e == MakeDirs(d, dir).value;
      MakeDirsKeepsValid(d, dir);
      if Write(e, p, CssContent).Ok? { WriteKeepsValid(e, p, CssContent); }
    } else if Exists(d, dir) && Write(d, p, CssContent).Ok? {
      WriteKeepsValid(d, p, CssContent);
    }
    if CssDirMade(d, cwd) && Write(e, p, CssContent).Ok? {
      DirHoldsCssFile(e, cwd, cssName);
    }
  }

  /** A CSS file can be written only inside the CSS directory, which must therefore exist. */
  lemma DirHoldsCssFile(e: Disk, cwd: string, cssName: string)
    requires Valid(e) && cwd != [] && IsDir(e, Parent(CssFilePath(cwd, cssName)))
    ensures CssDir(cwd) in e.dirs
  {
    var dir, p := CssDir(cwd), CssFilePath(cwd, cssName);
    var r := Parent(p);
    assert p[|dir|] == '/';
    assert |dir| <= |r|;
    assert r == p[..|r|];
    if |dir| < |r| {
      assert r[|dir|] == '/';
      DirAbove(e, r, |dir|);
      assert r[..|dir|] == dir;
    } else {
      assert r == dir;
    }
  }

  /**
   * Step 4 with a CSS name without `/`: the file sits right in the CSS
   * directory, so the step succeeds exactly when the path is no directory
   * and the CSS directory existed or could be created. When a file stands
   * at the CSS directory's path, the guard skips `mkdirSync` and the write
   * fails with ENOTDIR.
   */
  lemma CssStepPlainName(d: Disk, cwd: string, cssName: string)
    requires Valid(d) && cwd != [] && PlainName(cssName)
    ensures var dir, p, o := CssDir(cwd), CssFilePath(cwd, cssName), CssStep(d, cwd, cssName);
      && (o.failure.None? <==>
            p !in d.dirs && (dir in d.dirs || (dir !in d.files && Ancestors(dir) !! d.files.Keys)))
      && (dir in d.files ==> o.failure == Some(FileError(NotDirectory)))
  {
    var dir, p := CssDir(cwd), CssFilePath(cwd, cssName);
    ParentOfJoin(dir, cssName);
    CssStepResult(d, cwd, cssName);
    if dir in d.files {
      assert p !in d.dirs;
    }
  }

  /**
   * Step 4 with a CSS name `sub/name` whose subdirectory does not exist yet:
   * only `src/styles` is created, so writing the CSS file fails with ENOENT.
   */
  lemma NestedCssNameFails(d: Disk, cwd: string, sub: string, name: string)
    requires Valid(d) && cwd != [] && sub != [] && PlainName(sub) && PlainName(name)
    requires Join(CssDir(cwd), sub) !in d.dirs && Join(CssDir(cwd), sub) !in d.files
    requires CssFilePath(cwd, sub + "/" + name) !in d.dirs
    requires CssDir(cwd) in d.dirs || (CssDir(cwd) !in d.files && Ancestors(CssDir(cwd)) !! d.files.Keys)
    ensures CssStep(d, cwd, sub + "/" + name).failure == Some(FileError(NoEntry))
  {
    var dir, sd := CssDir(cwd), Join(CssDir(cwd), sub);
    var p := CssFilePath(cwd, sub + "/" + name);
    assert p == Join(sd, name);
    ParentOfJoin(sd, name);
    assert forall q | q in Ancestors(dir) :: |q| < |dir|;
    assert !IsDir(AfterGuard(d, cwd), Parent(p));
    CssStepResult(d, cwd, sub + "/" + name);
  }

  /**
   * Step 6. With a consistent disk, it succeeds exactly when package.json is
   * a file whose text parses to an object or an array; it then holds the
   * serialised updated document, and no other file or directory changes.
   */
  lemma ManifestStepResult(d: Disk, cwd: string, cssName: string,
                           parse: string -> Option<Value>, stringify: Value -> string)
    requires Valid(d)
    ensures var p, o := ManifestPath(cwd), ManifestStep(d, cwd, cssName, parse, stringify);
      && o.disk.dirs == d.dirs && o.disk.files - {p} == d.files - {p}
      && (o.failure.None? <==>
            p in d.files && parse(d.files[p]).Some? && UpdateManifest(parse(d.files[p]).value, cssName).Ok?)
      && (o.failure.None? ==>
            o.disk.files == d.files[p := stringify(UpdateManifest(parse(d.files[p]).value, cssName).value)])
      && (o.failure.Some? ==> o.disk == d)
      && (p !in d.files ==>
            o.failure == Some(FileError(if p in d.dirs then IsDirectory
                                        else if Parent(p) in d.files then NotDirectory else NoEntry)))
      && (p in d.files && parse(d.files[p]).None? ==> o.failure == Some(ManifestSyntax))
      && (p in d.files && parse(d.files[p]).Some? && UpdateManifest(parse(d.files[p]).value, cssName).Err? ==>
            o.failure == Some(ManifestShape(TypeError)))
      && Valid(o.disk)
  {
    var p := ManifestPath(cwd);
    if p in d.files && parse(d.files[p]).Some? && UpdateManifest(parse(d.files[p]).value, cssName).Ok? {
      var text := stringify(UpdateManifest(parse(d.files[p]).value, cssName).value);
      WriteKeepsValid(d, p, text);
    }
  }

  /**
   * Step 7. An HTML file that exists is replaced by its patched text; a
   * missing one is created from the template when its directory exists; a
   * directory at that path makes the read fail with EISDIR. Nothing but the
   * HTML path changes, and a failure changes nothing.
   */
  lemma HtmlStepResult(d: Disk, cwd: string, htmlName: string)
    requires Valid(d)
    ensures var p, o := HtmlPath(cwd, htmlName), HtmlStep(d, cwd, htmlName);
      && o.disk.dirs == d.dirs && o.disk.files - {p} == d.files - {p}
      && (p in d.files ==> o == Outcome(Disk(d.files[p := Patch(d.files[p])], d.dirs), None))
      && (p in d.dirs ==> o == Outcome(d, Some(FileError(IsDirectory))))
      && (!Exists(d, p) ==> (o.failure.None? <==> IsDir(d, Parent(p))))
      && (!Exists(d, p) && IsDir(d, Parent(p)) ==> o.disk.files == d.files[p := Template])
      && (o.failure.Some? ==> o.disk == d)
      && Valid(o.disk)
  {
    var p := HtmlPath(cwd, htmlName);
    if p in d.files {
      WrittenStays(d, p, Patch(d.files[p]), {p});
    } else if !Exists(d, p) {
      WrittenStays(d, p, Template, {p});
    }
  }

  /**
   * After a successful step 7 whose page had a `</head>` or did not exist,
   * the page links the build output, and the link ends before the page's
   * first `</head>`.
   */
  lemma HtmlStepLinksBuildOutput(d: Disk, cwd: string, htmlName: string)
    requires Valid(d)
    requires HtmlStep(d, cwd, htmlName).failure.None?
    requires var p := HtmlPath(cwd, htmlName); p in d.files ==> !Absent(d.files[p], HeadClose)
    ensures var p := HtmlPath(cwd, htmlName);
      p in HtmlStep(d, cwd, htmlName).disk.files && LinkedBeforeHead(HtmlStep(d, cwd, htmlName).disk.files[p])
  {
    var p := HtmlPath(cwd, htmlName);
    HtmlStepResult(d, cwd, htmlName);
    if p in d.files {
      PatchLinksBeforeHead(d.files[p]);
    } else {
      TemplateLinksBeforeHead();
    }
  }

  // ---- What the whole run does ----

  /** The five files steps 3 to 7 may write. */
  function Touched(cwd: string, cssName: string, htmlName: string): set<string>
  {
    {TailwindConfigPath(cwd), CssFilePath(cwd, cssName), PostcssConfigPath(cwd),
     ManifestPath(cwd), HtmlPath(cwd, htmlName)}
  }

  lemma CssStepKeepsValid(d: Disk, cwd: string, cssName: string)
    requires Valid(d)
    ensures var o := CssStep(d, cwd, cssName);
      && Valid(o.disk)
      && o.disk.files - {CssFilePath(cwd, cssName)} == d.files - {CssFilePath(cwd, cssName)}
      && d.dirs <= o.disk.dirs <= d.dirs + {CssDir(cwd)} + Ancestors(CssDir(cwd))
  {
    var dir, p := CssDir(cwd), CssFilePath(cwd, cssName);
    if !Exists(d, dir) && MakeDirs(d, dir).Ok? {
      var e := MakeDirs(d, dir).value;
      MakeDirsKeepsValid(d, dir);
      if Write(e, p, CssContent).Ok? { WriteKeepsValid(e, p, CssContent); }
    } else if Exists(d, dir) && Write(d, p, CssContent).Ok? {
      WriteKeepsValid(d, p, CssContent);
    }
  }

  /** A step that writes only `p` writes nothing outside a set holding `p`. */
  lemma FrameWiden(before: map<string, string>, after: map<string, string>, p: string, t: set<string>)
    requires p in t && after - {p} == before - {p}
    ensures after - t == before - t
  {
    assert forall q | q !in t :: q in after <==> q in (after - {p});
    assert forall q | q !in t :: q in before <==> q in (before - {p});
  }

  /** Steps 6 and 7 keep the disk consistent and write only the manifest and the HTML file. */
  lemma FromManifestStays(d: Disk, cwd: string, cssName: string, htmlName: string,
                          parse: string -> Option<Value>, stringify: Value -> string, t: set<string>)
    requires Valid(d) && ManifestPath(cwd) in t && HtmlPath(cwd, htmlName) in t
    ensures var o := FromManifest(d, cwd, cssName, htmlName, parse, stringify);
      Valid(o.disk) && o.disk.files - t == d.files - t && o.disk.dirs == d.dirs
  {
    var o6 := ManifestStep(d, cwd, cssName, parse, stringify);
    ManifestStepResult(d, cwd, cssName, parse, stringify);
    FrameWiden(d.files, o6.disk.files, ManifestPath(cwd), t);
    if o6.failure.None? {
      var o7 := HtmlStep(o6.disk, cwd, htmlName);
      HtmlStepResult(o6.disk, cwd, htmlName);
      FrameWiden(o6.disk.files, o7.disk.files, HtmlPath(cwd, htmlName), t);
    }
  }

  /** Steps 5 to 7 keep the disk consistent and write only their three files. */
  lemma FromPostcssStays(d: Disk, cwd: string, cssName: string, htmlName: string,
                         parse: string -> Option<Value>, stringify: Value -> string, t: set<string>)
    requires Valid(d) && PostcssConfigPath(cwd) in t && ManifestPath(cwd) in t && HtmlPath(cwd, htmlName) in t
    ensures var o := FromPostcss(d, cwd, cssName, htmlName, parse, stringify);
      Valid(o.disk) && o.disk.files - t == d.files - t && o.disk.dirs == d.dirs
  {
    var o5 := PostcssStep(d, cwd);
    WrittenStays(d, PostcssConfigPath(cwd), Trim(PostcssConfigTemplate), t);
    if o5.failure.None? {
      FromManifestStays(o5.disk, cwd, cssName, htmlName, parse, stringify, t);
    }
  }

  /** Steps 4 to 7 keep the disk consistent, write only their four files and create only the CSS directory and those above it. */
  lemma FromCssStays(d: Disk, cwd: string, cssName: string, htmlName: string,
                     parse: string -> Option<Value>, stringify: Value -> string, t: set<string>)
    requires Valid(d) && CssFilePath(cwd, cssName) in t && PostcssConfigPath(cwd) in t
    requires ManifestPath(cwd) in t && HtmlPath(cwd, htmlName) in t
    ensures var o := FromCss(d, cwd, cssName, htmlName, parse, stringify);
      && Valid(o.disk) && o.disk.files - t == d.files - t
      && d.dirs <= o.disk.dirs <= d.dirs + {CssDir(cwd)} + Ancestors(CssDir(cwd))
  {
    var o4 := CssStep(d, cwd, cssName);
    CssStepKeepsValid(d, cwd, cssName);
    FrameWiden(d.files, o4.disk.files, CssFilePath(cwd, cssName), t);
    if o4.failure.None? {
      FromPostcssStays(o4.disk, cwd, cssName, htmlName, parse, stringify, t);
    }
  }

  /** A single write keeps the disk consistent and writes nothing outside a set holding its path. */
  lemma WrittenStays(d: Disk, p: string, text: string, t: set<string>)
    requires Valid(d) && p in t
    ensures var o := Written(d, Write(d, p, text));
      Valid(o.disk) && o.disk.files - t == d.files - t && o.disk.dirs == d.dirs
  {
    if Write(d, p, text).Ok? {
      WriteKeepsValid(d, p, text);
      FrameWiden(d.files, d.files[p := text], p, t);
    }
  }

  /** Step 3 keeps the disk consistent and writes only the Tailwind configuration. */
  lemma ConfigStepStays(d: Disk, cwd: string, t: set<string>)
    requires Valid(d) && TailwindConfigPath(cwd) in t
    ensures var o := ConfigStep(d, cwd);
      Valid(o.disk) && o.disk.files - t == d.files - t && o.disk.dirs == d.dirs
  {
    WrittenStays(d, TailwindConfigPath(cwd), Trim(TailwindConfigTemplate), t);
  }

  /** Steps 3 to 7 keep the disk consistent, write only their five files and create only the CSS directory and those above it. */
  lemma FromConfigStays(d: Disk, cwd: string, cssName: string, htmlName: string,
                        parse: string -> Option<Value>, stringify: Value -> string, t: set<string>)
    requires Valid(d) && TailwindConfigPath(cwd) in t && CssFilePath(cwd, cssName) in t
    requires PostcssConfigPath(cwd) in t && ManifestPath(cwd) in t && HtmlPath(cwd, htmlName) in t
    ensures var o := FromConfig(d, cwd, cssName, htmlName, parse, stringify);
      && Valid(o.disk) && o.disk.files - t == d.files - t
      && d.dirs <= o.disk.dirs <= d.dirs + {CssDir(cwd)} + Ancestors(CssDir(cwd))
  {
    var o3 := ConfigStep(d, cwd);
    ConfigStepStays(d, cwd, t);
    if o3.failure.None? {
      assert FromConfig(d, cwd, cssName, htmlName, parse, stringify)
          == FromCss(o3.disk, cwd, cssName, htmlName, parse, stringify);
      FromCssStays(o3.disk, cwd, cssName, htmlName, parse, stringify, t);
    }
  }

  /**
   * Whatever happens, the run leaves a consistent disk, writes no file
   * outside the five it names, removes no directory and creates none but
   * the CSS directory and the directories above it.
   */
  lemma RunStaysInItsFiles(d: Disk, cwd: string, cssAnswer: string, htmlAnswer: string,
                           parse: string -> Option<Value>, stringify: Value -> string)
    requires Valid(d)
    ensures var o, t := Run(d, cwd, cssAnswer, htmlAnswer, parse, stringify),
                        Touched(cwd, CssFileName(cssAnswer), HtmlFileName(htmlAnswer));
      && Valid(o.disk)
      && o.disk.files - t == d.files - t
      && d.dirs <= o.disk.dirs <= d.dirs + {CssDir(cwd)} + Ancestors(CssDir(cwd))
  {
    var cssName, htmlName := CssFileName(cssAnswer), HtmlFileName(htmlAnswer);
    FromConfigStays(d, cwd, cssName, htmlName, parse, stringify, Touched(cwd, cssName, htmlName));
  }

  // ---- A run that sets up a project ----

  /**
   * A name without `/` other than `src` and `src/styles`, joined to the
   * working directory, is neither the CSS directory nor a directory above it.
   */
  lemma BesideCssDir(cwd: string, name: string)
    requires PlainName(name) && name != "src"
    ensures Join(cwd, name) != CssDir(cwd) && Join(cwd, name) !in Ancestors(CssDir(cwd))
  {
    assert forall i | 0 <= i < |CssDirName| && i != 3 :: CssDirName[i] != '/';
    assert CssDirName[3] == '/';
    var dir, p := CssDir(cwd), Join(cwd, name);
    if p == dir {
      JoinInjective(cwd, name, CssDirName);
    }
    forall q | q in Ancestors(dir) ensures q != p {
      var k :| 0 < k < |dir| && dir[k] == '/' && dir[..k] == q;
      if k > |cwd| {
        assert dir[k] == CssDirName[k - |cwd| - 1];
        assert q == Join(cwd, "src");
        if q == p { JoinInjective(cwd, name, "src"); }
      }
    }
  }

  /** A name without `/` joined to the working directory is not the CSS file, which sits two levels down. */
  lemma NotCssFile(cwd: string, name: string, cssName: string)
    requires PlainName(name)
    ensures Join(cwd, name) != CssFilePath(cwd, cssName)
  {
    CssFileIsBuildInput(cwd, cssName);
    assert CssInputPath(cssName)[3] == '/';
    if Join(cwd, name) == CssFilePath(cwd, cssName) {
      JoinInjective(cwd, name, CssInputPath(cssName));
    }
  }

  /** The names the scaffold chooses for the two configuration files and the manifest. */
  lemma FixedNamesPlain()
    ensures PlainName(TailwindConfigName) && PlainName(PostcssConfigName) && PlainName(ManifestName)
    ensures TailwindConfigName != "src" && PostcssConfigName != "src" && ManifestName != "src"
  {
  }

  /**
   * With plain CSS and HTML names, and an HTML name that is none of the
   * other files nor `src`, the five paths of a run are five different
   * paths; those beside the CSS directory lie in the working directory and
   * are not the CSS directory or one above it; the CSS file lies in the CSS
   * directory.
   */
  lemma PathsApart(cwd: string, cssName: string, htmlName: string)
    requires cwd != [] && PlainName(cssName) && PlainName(htmlName)
    requires htmlName !in [TailwindConfigName, PostcssConfigName, ManifestName, "src"]
    ensures var a, b, c, m, h := TailwindConfigPath(cwd), CssFilePath(cwd, cssName), PostcssConfigPath(cwd),
                                 ManifestPath(cwd), HtmlPath(cwd, htmlName);
      && a != b && a != c && a != m && a != h && b != c && b != m && b != h && c != m && c != h && m != h
      && Parent(a) == cwd && Parent(c) == cwd && Parent(m) == cwd && Parent(h) == cwd
      && Parent(b) == CssDir(cwd)
      && CssDir(cwd) !in {a, b, c, m, h}
      && forall q | q in Ancestors(CssDir(cwd)) :: q != a && q != b && q != c && q != m && q != h
  {
    FixedNamesPlain();
    var names := [TailwindConfigName, PostcssConfigName, ManifestName, htmlName];
    forall x, y | x in names && y in names && x != y ensures Join(cwd, x) != Join(cwd, y) {
      if Join(cwd, x) == Join(cwd, y) { JoinInjective(cwd, x, y); }
    }
    forall x | x in names ensures Parent(Join(cwd, x)) == cwd && Join(cwd, x) != CssFilePath(cwd, cssName) {
      ParentOfJoin(cwd, x);
      NotCssFile(cwd, x, cssName);
    }
    forall x | x in names ensures Join(cwd, x) != CssDir(cwd) && Join(cwd, x) !in Ancestors(CssDir(cwd)) {
      BesideCssDir(cwd, x);
    }
    ParentOfJoin(CssDir(cwd), cssName);
    assert forall q | q in Ancestors(CssDir(cwd)) :: |q| < |CssDir(cwd)|;
  }

  /**
   * A working directory ready for the scaffold: a consistent disk, the
   * working directory exists, the names are single names and the HTML name
   * is not one of the other files nor `src`, no file stands where the CSS
   * directory or one above it goes, and none of the five files is a
   * directory.
   */
  predicate Ready(d: Disk, cwd: string, cssName: string, htmlName: string)
  {
    && Valid(d) && cwd != [] && cwd in d.dirs
    && PlainName(cssName) && PlainName(htmlName)
    && htmlName !in [TailwindConfigName, PostcssConfigName, ManifestName, "src"]
    && CssDir(cwd) !in d.files && Ancestors(CssDir(cwd)) !! d.files.Keys
    && Touched(cwd, cssName, htmlName) !! d.dirs
  }

  /** Writing one of the five files, when it succeeds, leaves the working directory ready. */
  lemma ReadyAfterWrite(e: Disk, cwd: string, cssName: string, htmlName: string, p: string, text: string)
    requires Ready(e, cwd, cssName, htmlName) && p in Touched(cwd, cssName, htmlName)
    requires Write(e, p, text).Ok?
    ensures Ready(Write(e, p, text).value, cwd, cssName, htmlName)
  {
    PathsApart(cwd, cssName, htmlName);
    WriteKeepsValid(e, p, text);
    assert p != CssDir(cwd) && p !in Ancestors(CssDir(cwd));
  }

  /** Step 3 in a ready directory writes tailwind.config.js and leaves the directory ready. */
  lemma ReadyConfig(d: Disk, cwd: string, cssName: string, htmlName: string)
    requires Ready(d, cwd, cssName, htmlName)
    ensures var o := ConfigStep(d, cwd);
      && o.failure.None? && o.disk == Disk(d.files[TailwindConfigPath(cwd) := TailwindConfig], d.dirs)
      && Ready(o.disk, cwd, cssName, htmlName)
  {
    PathsApart(cwd, cssName, htmlName);
    ConfigStepResult(d, cwd);
    ReadyAfterWrite(d, cwd, cssName, htmlName, TailwindConfigPath(cwd), Trim(TailwindConfigTemplate));
  }

  /** Step 4 in a ready directory creates the CSS directory if needed, writes the CSS file and leaves the directory ready. */
  lemma ReadyCss(d: Disk, cwd: string, cssName: string, htmlName: string)
    requires Ready(d, cwd, cssName, htmlName)
    ensures var o := CssStep(d, cwd, cssName);
      && o.failure.None? && o.disk.files == d.files[CssFilePath(cwd, cssName) := CssContent]
      && CssDir(cwd) in o.disk.dirs
      && Ready(o.disk, cwd, cssName, htmlName)
  {
    var dir, p, o := CssDir(cwd), CssFilePath(cwd, cssName), CssStep(d, cwd, cssName);
    PathsApart(cwd, cssName, htmlName);
    assert p !in d.dirs;
    CssStepPlainName(d, cwd, cssName);
    CssStepResult(d, cwd, cssName);
    CssStepKeepsValid(d, cwd, cssName);
    ReadyAfterCss(d, o.disk, cwd, cssName, htmlName);
  }

  /** A disk that differs from a ready one only by the CSS file and the CSS directory is ready. */
  lemma ReadyAfterCss(d: Disk, e: Disk, cwd: string, cssName: string, htmlName: string)
    requires Ready(d, cwd, cssName, htmlName) && Valid(e)
    requires e.files == d.files[CssFilePath(cwd, cssName) := CssContent]
    requires d.dirs <= e.dirs <= d.dirs + {CssDir(cwd)} + Ancestors(CssDir(cwd))
    ensures Ready(e, cwd, cssName, htmlName)
  {
    var dir, p, t := CssDir(cwd), CssFilePath(cwd, cssName), Touched(cwd, cssName, htmlName);
    TouchedBelowCssDir(cwd, cssName, htmlName);
    assert e.files.Keys == d.files.Keys + {p};
    assert t !! e.dirs;
  }

  /** None of the five files is the CSS directory or a directory above it. */
  lemma TouchedBelowCssDir(cwd: string, cssName: string, htmlName: string)
    requires cwd != [] && PlainName(cssName) && PlainName(htmlName)
    requires htmlName !in [TailwindConfigName, PostcssConfigName, ManifestName, "src"]
    ensures Touched(cwd, cssName, htmlName) !! {CssDir(cwd)} + Ancestors(CssDir(cwd))
    ensures CssFilePath(cwd, cssName) in Touched(cwd, cssName, htmlName)
  {
    PathsApart(cwd, cssName, htmlName);
    var t := Touched(cwd, cssName, htmlName);
    forall q | q in t ensures q !in Ancestors(CssDir(cwd)) {
      assert q in {TailwindConfigPath(cwd), CssFilePath(cwd, cssName), PostcssConfigPath(cwd),
                   ManifestPath(cwd), HtmlPath(cwd, htmlName)};
    }
  }

  /** Step 5 in a ready directory writes postcss.config.js and leaves the directory ready. */
  lemma ReadyPostcss(d: Disk, cwd: string, cssName: string, htmlName: string)
    requires Ready(d, cwd, cssName, htmlName)
    ensures var o := PostcssStep(d, cwd);
      && o.failure.None? && o.disk == Disk(d.files[PostcssConfigPath(cwd) := PostcssConfig], d.dirs)
      && Ready(o.disk, cwd, cssName, htmlName)
  {
    PathsApart(cwd, cssName, htmlName);
    PostcssStepResult(d, cwd);
    ReadyAfterWrite(d, cwd, cssName, htmlName, PostcssConfigPath(cwd), Trim(PostcssConfigTemplate));
  }

  /** Step 6 in a ready directory with a usable package.json rewrites it and leaves the directory ready. */
  lemma ReadyManifest(d: Disk, cwd: string, cssName: string, htmlName: string,
                      parse: string -> Option<Value>, stringify: Value -> string)
    requires Ready(d, cwd, cssName, htmlName)
    requires ManifestUsable(d.files, cwd, cssName, parse)
    ensures var o, p := ManifestStep(d, cwd, cssName, parse, stringify), ManifestPath(cwd);
      && o.failure.None?
      && o.disk == Disk(d.files[p := stringify(UpdateManifest(parse(d.files[p]).value, cssName).value)], d.dirs)
      && Ready(o.disk, cwd, cssName, htmlName)
  {
    var p := ManifestPath(cwd);
    ManifestStepResult(d, cwd, cssName, parse, stringify);
    ReadyAfterWrite(d, cwd, cssName, htmlName, p, stringify(UpdateManifest(parse(d.files[p]).value, cssName).value));
  }

  /** Step 7 in a ready directory writes the HTML file: the patched old text, or the template. */
  lemma ReadyHtml(d: Disk, cwd: string, cssName: string, htmlName: string)
    requires Ready(d, cwd, cssName, htmlName)
    ensures var o, h := HtmlStep(d, cwd, htmlName), HtmlPath(cwd, htmlName);
      && o.failure.None?
      && o.disk == Disk(d.files[h := if h in d.files then Patch(d.files[h]) else Template], d.dirs)
  {
    PathsApart(cwd, cssName, htmlName);
    HtmlStepResult(d, cwd, htmlName);
  }

  /** package.json is a file whose text parses to a document step 6 accepts (an object or an array). */
  predicate ManifestUsable(files: map<string, string>, cwd: string, cssName: string, parse: string -> Option<Value>)
  {
    && ManifestPath(cwd) in files && parse(files[ManifestPath(cwd)]).Some?
    && UpdateManifest(parse(files[ManifestPath(cwd)]).value, cssName).Ok?
  }

  /** The text step 6 writes to package.json. */
  function UpdatedManifest(files: map<string, string>, cwd: string, cssName: string,
                           parse: string -> Option<Value>, stringify: Value -> string): string
    requires ManifestUsable(files, cwd, cssName, parse)
  {
    stringify(UpdateManifest(parse(files[ManifestPath(cwd)]).value, cssName).value)
  }

  /** The text step 7 writes to the HTML file at `h`. */
  function PageFor(files: map<string, string>, h: string): string
  {
    if h in files then Patch(files[h]) else Template
  }

  /** In a ready directory with a usable package.json, steps 6 and 7 succeed and write exactly the manifest and the page. */
  lemma FromManifestDone(e: Disk, cwd: string, cssName: string, htmlName: string,
                         parse: string -> Option<Value>, stringify: Value -> string)
    requires Ready(e, cwd, cssName, htmlName) && ManifestUsable(e.files, cwd, cssName, parse)
    ensures var o, m, h := FromManifest(e, cwd, cssName, htmlName, parse, stringify), ManifestPath(cwd), HtmlPath(cwd, htmlName);
      && o.failure.None? && o.disk.dirs == e.dirs
      && o.disk.files == e.files[m := UpdatedManifest(e.files, cwd, cssName, parse, stringify)][h := PageFor(e.files, h)]
  {
    PathsApart(cwd, cssName, htmlName);
    ReadyManifest(e, cwd, cssName, htmlName, parse, stringify);
    var o6 := ManifestStep(e, cwd, cssName, parse, stringify);
    ReadyHtml(o6.disk, cwd, cssName, htmlName);
    var h := HtmlPath(cwd, htmlName);
    assert PageFor(o6.disk.files, h) == PageFor(e.files, h);
  }

  /** In a ready directory with a usable package.json, steps 5 to 7 succeed and write exactly their three files. */
  lemma FromPostcssDone(e: Disk, cwd: string, cssName: string, htmlName: string,
                        parse: string -> Option<Value>, stringify: Value -> string)
    requires Ready(e, cwd, cssName, htmlName) && ManifestUsable(e.files, cwd, cssName, parse)
    ensures var o, c, m, h := FromPostcss(e, cwd, cssName, htmlName, parse, stringify),
                              PostcssConfigPath(cwd), ManifestPath(cwd), HtmlPath(cwd, htmlName);
      && o.failure.None? && o.disk.dirs == e.dirs
      && o.disk.files == e.files[c := PostcssConfig][m := UpdatedManifest(e.files, cwd, cssName, parse, stringify)]
                                [h := PageFor(e.files, h)]
  {
    PathsApart(cwd, cssName, htmlName);
    ReadyPostcss(e, cwd, cssName, htmlName);
    var o5 := PostcssStep(e, cwd);
    var c, h := PostcssConfigPath(cwd), HtmlPath(cwd, htmlName);
    assert o5.disk.files == e.files[c := PostcssConfig];
    assert o5.disk.files[ManifestPath(cwd)] == e.files[ManifestPath(cwd)];
    assert UpdatedManifest(o5.disk.files, cwd, cssName, parse, stringify)
        == UpdatedManifest(e.files, cwd, cssName, parse, stringify);
    assert PageFor(o5.disk.files, h) == PageFor(e.files, h);
    FromManifestDone(o5.disk, cwd, cssName, htmlName, parse, stringify);
  }

  /** In a ready directory with a usable package.json, steps 4 to 7 succeed, write exactly their four files and leave the CSS directory in place. */
  lemma FromCssDone(e: Disk, cwd: string, cssName: string, htmlName: string,
                    parse: string -> Option<Value>, stringify: Value -> string)
    requires Ready(e, cwd, cssName, htmlName) && ManifestUsable(e.files, cwd, cssName, parse)
    ensures var o, b, c, m, h := FromCss(e, cwd, cssName, htmlName, parse, stringify), CssFilePath(cwd, cssName),
                                 PostcssConfigPath(cwd), ManifestPath(cwd), HtmlPath(cwd, htmlName);
      && o.failure.None? && CssDir(cwd) in o.disk.dirs
      && o.disk.files == e.files[b := CssContent][c := PostcssConfig]
                                [m := UpdatedManifest(e.files, cwd, cssName, parse, stringify)][h := PageFor(e.files, h)]
  {
    PathsApart(cwd, cssName, htmlName);
    ReadyCss(e, cwd, cssName, htmlName);
    var o4 := CssStep(e, cwd, cssName);
    var b, h := CssFilePath(cwd, cssName), HtmlPath(cwd, htmlName);
    assert o4.disk.files[ManifestPath(cwd)] == e.files[ManifestPath(cwd)];
    assert UpdatedManifest(o4.disk.files, cwd, cssName, parse, stringify)
        == UpdatedManifest(e.files, cwd, cssName, parse, stringify);
    assert PageFor(o4.disk.files, h) == PageFor(e.files, h);
    FromPostcssDone(o4.disk, cwd, cssName, htmlName, parse, stringify);
  }

  /** In a ready directory with a usable package.json, steps 3 to 7 succeed, write exactly their five files and leave the CSS directory in place. */
  lemma FromConfigDone(d: Disk, cwd: string, cssName: string, htmlName: string,
                       parse: string -> Option<Value>, stringify: Value -> string)
    requires Ready(d, cwd, cssName, htmlName) && ManifestUsable(d.files, cwd, cssName, parse)
    ensures var o, a, b, c, m, h := FromConfig(d, cwd, cssName, htmlName, parse, stringify), TailwindConfigPath(cwd),
                                    CssFilePath(cwd, cssName), PostcssConfigPath(cwd), ManifestPath(cwd), HtmlPath(cwd, htmlName);
      && o.failure.None? && CssDir(cwd) in o.disk.dirs
      && o.disk.files == d.files[a := TailwindConfig][b := CssContent][c := PostcssConfig]
                                [m := UpdatedManifest(d.files, cwd, cssName, parse, stringify)][h := PageFor(d.files, h)]
  {
    PathsApart(cwd, cssName, htmlName);
    ReadyConfig(d, cwd, cssName, htmlName);
    var o3 := ConfigStep(d, cwd);
    var h := HtmlPath(cwd, htmlName);
    assert o3.disk.files[ManifestPath(cwd)] == d.files[ManifestPath(cwd)];
    assert UpdatedManifest(o3.disk.files, cwd, cssName, parse, stringify)
        == UpdatedManifest(d.files, cwd, cssName, parse, stringify);
    assert PageFor(o3.disk.files, h) == PageFor(d.files, h);
    FromCssDone(o3.disk, cwd, cssName, htmlName, parse, stringify);
  }

  /**
   * In a ready working directory whose package.json parses to an object or
   * an array, steps 3 to 7 all succeed: the two configurations are written
   * trimmed, the CSS file holds the directives inside the CSS directory,
   * package.json holds the updated document, and the HTML file holds its
   * patched old text, or the template when there was none.
   */
  lemma SetsUpProject(d: Disk, cwd: string, cssName: string, htmlName: string,
                      parse: string -> Option<Value>, stringify: Value -> string)
    requires Ready(d, cwd, cssName, htmlName)
    requires ManifestUsable(d.files, cwd, cssName, parse)
    ensures var o, h := FromConfig(d, cwd, cssName, htmlName, parse, stringify), HtmlPath(cwd, htmlName);
      && o.failure.None?
      && TailwindConfigPath(cwd) in o.disk.files && o.disk.files[TailwindConfigPath(cwd)] == TailwindConfig
      && CssFilePath(cwd, cssName) in o.disk.files && o.disk.files[CssFilePath(cwd, cssName)] == CssContent
      && PostcssConfigPath(cwd) in o.disk.files && o.disk.files[PostcssConfigPath(cwd)] == PostcssConfig
      && ManifestPath(cwd) in o.disk.files
      && o.disk.files[ManifestPath(cwd)]
         == stringify(UpdateManifest(parse(d.files[ManifestPath(cwd)]).value, cssName).value)
      && h in o.disk.files && o.disk.files[h] == (if h in d.files then Patch(d.files[h]) else Template)
      && CssDir(cwd) in o.disk.dirs
  {
    PathsApart(cwd, cssName, htmlName);
    FromConfigDone(d, cwd, cssName, htmlName, parse, stringify);
    var h := HtmlPath(cwd, htmlName);
    FiveWrites(d.files, TailwindConfigPath(cwd), CssFilePath(cwd, cssName), PostcssConfigPath(cwd), ManifestPath(cwd), h,
               TailwindConfig, CssContent, PostcssConfig, UpdatedManifest(d.files, cwd, cssName, parse, stringify),
               PageFor(d.files, h));
  }

  /** Reading back five writes to five different paths. */
  lemma FiveWrites(f: map<string, string>, a: string, b: string, c: string, m: string, h: string,
                   x: string, y: string, z: string, w: string, v: string)
    requires a != b && a != c && a != m && a != h && b != c && b != m && b != h && c != m && c != h && m != h
    ensures var g := f[a := x][b := y][c := z][m := w][h := v];
      g[a] == x && g[b] == y && g[c] == z && g[m] == w && g[h] == v
  {
  }
}
