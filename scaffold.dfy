/**
 * The scaffold as the program runs it: a working directory whose files and
 * directories the `fs` calls change one at a time, and the `.then` callback
 * of the prompt (index.js:67-146) as a method performing its steps in order.
 * Every method is proved to do exactly what the pure model in `Disk` and
 * `Steps` says, so the lemmas proved there hold of the program's state.
 */
module Scaffold {
  import opened Wrappers
  import opened Text
  import opened Names
  import opened Html
  import opened Disk
  import opened Manifest
  import opened Steps

  /** The files and directories `fs` sees. */
  class FileSystem {
    var files: map<string, string>
    var dirs: set<string>

    /** The disk the fields describe. */
    function State(): Disk
      reads this
    {
      Disk(files, dirs)
    }

    constructor (d: Disk)
      ensures State() == d
    {
      files := d.files;
      dirs := d.dirs;
    }

    /** `fs.existsSync(p)`: a file or a directory is there. */
    method ExistsSync(p: string) returns (b: bool)
      ensures b <==> p in State().files || p in State().dirs
      ensures b == Exists(State(), p)
    {
      b := p in files || p in dirs;
    }

    /** `fs.readFileSync(p, 'utf-8')`: the file's text, or the error it throws. */
    method ReadFileSync(p: string) returns (r: Result<string, FsError>)
      ensures r == Read(State(), p)
      ensures r.Ok? <==> p in State().files
    {
      if p in files {
        r := Ok(files[p]);
      } else if p in dirs {
        r := Err(IsDirectory);
      } else if Parent(p) in files {
        r := Err(NotDirectory);
      } else {
        r := Err(NoEntry);
      }
    }

    /**
     * `fs.writeFileSync(p, text)`: the file at `p` holds `text` and nothing
     * else changes, or the disk stays as it was and the error is returned.
     */
    method WriteFileSync(p: string, text: string) returns (failure: Option<Failure>)
      modifies this
      ensures Outcome(State(), failure) == Written(old(State()), Write(old(State()), p, text))
      ensures failure.None? ==> files == old(files)[p := text] && dirs == old(dirs)
    {
      if p in dirs {
        failure := Some(FileError(IsDirectory));
      } else if Parent(p) == [] || Parent(p) in dirs {
        files := files[p := text];
        failure := None;
      } else if Parent(p) in files {
        failure := Some(FileError(NotDirectory));
      } else {
        failure := Some(FileError(NoEntry));
      }
    }

    /** `fs.mkdirSync(p, { recursive: true })`: `p` and the directories above it exist afterwards. */
    method MkdirSync(p: string) returns (failure: Option<Failure>)
      modifies this
      ensures Outcome(State(), failure) == Written(old(State()), MakeDirs(old(State()), p))
      ensures failure.None? ==> files == old(files) && p in dirs && Ancestors(p) <= dirs
    {
      if p in files {
        failure := Some(FileError(AlreadyExists));
      } else if !(Ancestors(p) !! files.Keys) {
        failure := Some(FileError(NotDirectory));
      } else {
        dirs := dirs + {p} + Ancestors(p);
        failure := None;
      }
    }

    /** `createCssFile` (index.js:19-28): the Tailwind directives written to the given path. */
    method CreateCssFile(cssFilePath: string) returns (failure: Option<Failure>)
      modifies this
      ensures Outcome(State(), failure) == Written(old(State()), Write(old(State()), cssFilePath, CssContent))
    {
      failure := WriteFileSync(cssFilePath, CssContent);
    }

    /** `createHtmlFile` (index.js:31-51): the test page written to the given path. */
    method CreateHtmlFile(htmlFilePath: string) returns (failure: Option<Failure>)
      modifies this
      ensures Outcome(State(), failure) == Written(old(State()), Write(old(State()), htmlFilePath, Template))
      ensures failure.None? ==>
        && OccursAt(files[htmlFilePath], LinkTag, TemplateLinkAt)
        && IndexOf(files[htmlFilePath], HeadClose) == Some(TemplateHeadAt)
    {
      failure := WriteFileSync(htmlFilePath, Template);
      if failure.None? {
        TemplateHasOneLinkBeforeHead();
      }
    }

    /**
     * Steps 1 and 2 (index.js:73-82): the npm commands to run, `npm init -y`
     * only when there is no package.json in the working directory.
     */
    method NpmCommands(cwd: string) returns (commands: seq<string>)
      ensures commands == Commands(Exists(State(), ManifestPath(cwd)))
      ensures NpmInit in commands <==> ManifestPath(cwd) !in State().files && ManifestPath(cwd) !in State().dirs
    {
      var manifestExists := ExistsSync(ManifestPath(cwd));
      commands := [];
      if !manifestExists {
        commands := commands + [NpmInit];
      }
      commands := commands + [NpmInstall];
    }

    /**
     * The file steps of the callback (index.js:67-144) once npm has run:
     * the names are resolved from the answers, then steps 3 to 7 run and
     * the first `fs` call, `JSON.parse` or assignment that throws ends the
     * callback. The state and the exception are those `Steps.Run` gives.
     */
    method SetUp(cwd: string, cssAnswer: string, htmlAnswer: string,
                 parse: string -> Option<Value>, stringify: Value -> string) returns (failure: Option<Failure>)
      modifies this
      ensures Outcome(State(), failure) == Run(old(State()), cwd, cssAnswer, htmlAnswer, parse, stringify)
    {
      var cssName := CssFileName(cssAnswer);
      var htmlName := HtmlFileName(htmlAnswer);
      var cssDir := CssDir(cwd);
      var cssFile := Join(cssDir, cssName);
      ghost var run := Run(State(), cwd, cssAnswer, htmlAnswer, parse, stringify);

      // Step 3
      failure := WriteFileSync(TailwindConfigPath(cwd), Trim(TailwindConfigTemplate));
      if failure.Some? {
        return;
      }
      assert run == FromCss(State(), cwd, cssName, htmlName, parse, stringify);

      // Step 4
      ghost var before4 := State();
      var dirExists := ExistsSync(cssDir);
      if !dirExists {
        failure := MkdirSync(cssDir);
        if failure.Some? {
          return;
        }
      }
      failure := CreateCssFile(cssFile);
      assert Outcome(State(), failure) == CssStep(before4, cwd, cssName);
      if failure.Some? {
        return;
      }
      assert run == FromPostcss(State(), cwd, cssName, htmlName, parse, stringify);

      // Step 5
      failure := WriteFileSync(PostcssConfigPath(cwd), Trim(PostcssConfigTemplate));
      if failure.Some? {
        return;
      }
      assert run == FromManifest(State(), cwd, cssName, htmlName, parse, stringify);

      // Step 6
      failure := UpdatePackageJson(cwd, cssName, parse, stringify);
      if failure.Some? {
        return;
      }
      assert run == HtmlStep(State(), cwd, htmlName);

      // Step 7
      failure := UpdateHtml(cwd, htmlName);
    }

    /** Step 6 (index.js:121-129): package.json read, parsed, given its build script and written back. */
    method UpdatePackageJson(cwd: string, cssName: string,
                             parse: string -> Option<Value>, stringify: Value -> string) returns (failure: Option<Failure>)
      modifies this
      ensures Outcome(State(), failure) == ManifestStep(old(State()), cwd, cssName, parse, stringify)
    {
      var text := ReadFileSync(ManifestPath(cwd));
      if text.Err? {
        return Some(FileError(text.error));
      }
      var doc := parse(text.value);
      if doc.None? {
        return Some(ManifestSyntax);
      }
      var updated := UpdateManifest(doc.value, cssName);
      if updated.Err? {
        return Some(ManifestShape(updated.error));
      }
      failure := WriteFileSync(ManifestPath(cwd), stringify(updated.value));
    }

    /** Step 7 (index.js:132-144): an existing page gets the link before `</head>`, a missing one the template. */
    method UpdateHtml(cwd: string, htmlName: string) returns (failure: Option<Failure>)
      modifies this
      ensures Outcome(State(), failure) == HtmlStep(old(State()), cwd, htmlName)
    {
      var htmlFilePath := Join(cwd, htmlName);
      var pageExists := ExistsSync(htmlFilePath);
      if pageExists {
        var html := ReadFileSync(htmlFilePath);
        if html.Err? {
          return Some(FileError(html.error));
        }
        failure := WriteFileSync(htmlFilePath, Patch(html.value));
      } else {
        failure := CreateHtmlFile(htmlFilePath);
      }
    }
  }
}
