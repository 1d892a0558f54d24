# Tailwind scaffold, modelled in Dafny

`index.js` is a command-line script that sets up Tailwind CSS in the current
directory. It first asks for a CSS file name and an HTML file name. It then
runs npm (`npm init -y` when there is no package.json, then the install of
tailwindcss, postcss and autoprefixer). After that it writes, in this order:

1. tailwind.config.js, with the trimmed configuration text;
2. the CSS directory `src/styles`, created only when nothing exists at that
   path, and the CSS file with the three `@tailwind` directives;
3. postcss.config.js, also trimmed;
4. package.json, with a `build:css` script merged into its `scripts`;
5. the HTML page: an existing page gets a stylesheet link spliced in before
   its first `</head>`, and a missing one is created from a fixed template.

The first exception ends the callback, and the steps after it do not run.

This project models that callback and what it computes:

- `wrappers.dfy` holds `Option` and `Result`.
- `text.dfy` (module `Text`) holds pattern occurrence and first occurrence (`indexOf`, and what a string-pattern `replace` finds), plus ECMAScript `trim` with its exact white-space set.
- `names.dfy` (module `Names`) holds answer defaulting and the paths built with `path.join`.
- `manifest.dfy` (module `Manifest`) holds the parsed package.json document and the `scripts` merge, spread semantics included.
- `html.dfy` (module `Html`) holds the `</head>` patch and the template page.
- `disk.dfy` (module `Disk`) holds the four `fs` calls over a simulated disk of files and directories, with the error codes Node throws (one simplification is listed under Left out).
- `steps.dfy` (module `Steps`) holds each step as a function from disk to disk and `Run`, the whole callback. It also holds the lemmas:
  - what each step writes and when it fails;
  - the run stays within its five files and keeps the disk consistent;
  - in a ready working directory, the run sets up the whole project.
- `scaffold.dfy` (module `Scaffold`) holds the class `FileSystem`. Its fields are the files and directories. Its methods are the `fs` calls, `createCssFile`, `createHtmlFile` and the callback (`SetUp`), run step by step with early exits. Each method is proved equal to the pure model.

## Model

| member | source | states |
|---|---|---|
| Text.IndexOf | index.js:138 | the index `replace` finds is an occurrence of the pattern with none before it; there is none exactly when the pattern is absent |
| Text.Trim | index.js:68-69 | a trimmed text is empty or starts and ends with a non-white-space character |
| Text.TrimIsSlice | index.js:68-69 | the trimmed text is a slice of the input with only white space before and after it |
| Text.TrimEmptyIffAllSpace | index.js:68-69 | trimming gives the empty string exactly when the input is all white space |
| Text.TrimIdempotent | index.js:68-69 | trimming twice is trimming once |
| Text.TrimPadded | index.js:99 | a text padded on both sides with white space trims back to exactly the text, when the text starts and ends with non-white space |
| Names.ResolveName | index.js:68-69 | the trimmed answer or the fallback: never empty; the fallback for an all-white-space answer; otherwise the trimmed answer, a slice with only white space around it |
| Names.CssFileName | index.js:68 | never empty; "tailwind.css" for a blank answer, the trimmed answer otherwise |
| Names.HtmlFileName | index.js:69 | never empty; "index.html" for a blank answer, the trimmed answer otherwise |
| Names.CleanAnswerKept | index.js:68-69 | an answer without surrounding white space is used as it is |
| Names.ResolveStable | index.js:68-69 | resolving a resolved name gives the same name |
| Names.Join | index.js:71-72 | `path.join` of a directory and a name is the directory, one `/`, and the name |
| Names.JoinInjective | index.js:71-72 | two names joined to one directory collide only when they are equal |
| Names.CssFileIsBuildInput | index.js:126 | the CSS file written under the working directory is the build command's input path `src/styles/<name>` resolved there |
| Manifest.BuildCommand | index.js:126 | the command is "tailwindcss build ", the input `src/styles/<name>`, then " -o dist/tailwind.css" |
| Manifest.BuildCommandInjective | index.js:126 | different CSS names give different commands |
| Manifest.IndexKeys | index.js:125 | spreading an array-like value yields exactly the keys "0" … "n-1" |
| Manifest.Spread | index.js:125 | `{...v}` copies an object's fields, and nothing from `undefined`, `null`, booleans or numbers |
| Manifest.MergeScripts | index.js:124-127 | the merged scripts have the old keys plus `build:css`; `build:css` holds the command; other old scripts keep their values |
| Manifest.UpdateManifest | index.js:124-127 | succeeds exactly for objects and arrays; an array is saved unchanged; an object gains `scripts` and keeps every other top-level field |
| Manifest.ScriptsAfterUpdate | index.js:122-129 | after the update, `scripts.build:css` is the command; a missing `scripts` becomes `{build:css}`; an object `scripts` keeps every other script |
| Manifest.UpdateIdempotent | index.js:124-127 | running the merge again with the same CSS name changes nothing |
| Manifest.LastBuildWins | index.js:124-127 | merging with name a then b equals merging with b alone |
| Manifest.KeepsForeignScripts | index.js:124-127 | a manifest with a `test` script and another field keeps both and gains `build:css` |
| Html.Patch | index.js:138 | without `</head>` the page is unchanged; otherwise the link line is inserted right before the first `</head>` and the rest is kept |
| Html.PatchAtFirstHead | index.js:138 | for `before + "</head>" + after` with no `</head>` in `before`, the result is `before`, link line, `</head>`, `after`; later `</head>`s are untouched |
| Html.PatchChangesIffHead | index.js:138 | the patch changes the page exactly when it contains `</head>` |
| Html.PatchGrowsByLinkLine | index.js:138 | no check for an existing link: each patch of a page with `</head>` adds exactly the link line's length |
| Html.PatchTwiceAddsTwoLinks | index.js:138 | patching twice puts two link lines before the original first `</head>` |
| Html.PatchedLinkBeforeHead | index.js:138 | in a patched page the link sits two characters after the old first `</head>`, and the new first `</head>` follows the link line |
| Html.PatchLinksBeforeHead | index.js:138 | a patched page with a `</head>` links the stylesheet before its first `</head>` |
| Html.LinkLineHasNoHead | index.js:138 | the inserted line contains no `</head>` |
| Html.TemplateHasOneLinkBeforeHead | index.js:32-48 | the template has exactly one stylesheet link and exactly one `</head>`, the link ends before it, and it is the `</head>` the patch would find |
| Html.TemplateLinksBeforeHead | index.js:32-48 | the template links the stylesheet before its first `</head>` |
| Disk.Parent | index.js:72 | the directory part of a path is the prefix before its last `/`, or the root when there is none |
| Disk.ParentOfJoin | index.js:72 | the parent of `dir/name` is `dir` for a name without `/` |
| Disk.Exists | index.js:103 | `existsSync` holds exactly when reading the path gives a file's text or EISDIR |
| Disk.Read | index.js:137 | `readFileSync` succeeds exactly on a file and returns its text; EISDIR on a directory, ENOTDIR when the parent is a file, ENOENT otherwise |
| Disk.Write | index.js:26 | `writeFileSync` succeeds exactly when the path is no directory and its parent is one; only that file changes; EISDIR, ENOTDIR, ENOENT otherwise |
| Disk.MakeDirs | index.js:104 | recursive `mkdirSync` succeeds exactly when neither the path nor a directory above it is a file; it adds the path and its ancestors; EEXIST on a file |
| Disk.WriteKeepsValid | index.js:26 | a write keeps the disk consistent (no path both file and directory, every file and every directory inside a directory) |
| Disk.DirAbove | index.js:104 | on a consistent disk every directory above a directory exists too |
| Disk.MakeDirsKeepsValid | index.js:104 | creating directories keeps the disk consistent |
| Disk.ReadAfterWrite | index.js:137-139 | reading a just-written file returns the text written; other files read as before; a path directly below the new file now gives ENOTDIR; every other path reads as before |
| Disk.MakeDirsMakesPath | index.js:104 | after `mkdirSync` the directory and all above it exist |
| Steps.TailwindConfigTrimmed | index.js:86-99 | the written Tailwind configuration is the template literal without its padding |
| Steps.PostcssConfigTrimmed | index.js:110-118 | the written PostCSS configuration is the template literal without its padding |
| Steps.Commands | index.js:74-82 | the install always runs, last; `npm init -y` runs, first, exactly when there is no package.json; one command or two |
| Steps.LinkNamesBuildOutput | index.js:126 | the build command's output path is dist/tailwind.css for every CSS name, and the page link points at `./dist/tailwind.css` |
| Steps.ConfigStep | index.js:85-99 | step 3 writes at most tailwind.config.js, creates no directory, and a failure changes nothing (the exact outcome is in `ConfigStepResult`) |
| Steps.CssStep | index.js:102-107 | step 4 writes at most the CSS file, creates at most the CSS directory and those above it, and a failure writes no file (the exact outcome is in `CssStepResult`) |
| Steps.PostcssStep | index.js:109-118 | step 5 writes at most postcss.config.js, creates no directory, and a failure changes nothing (the exact outcome is in `PostcssStepResult`) |
| Steps.ManifestStep | index.js:121-129 | step 6 writes at most package.json, creates no directory, and a failure changes nothing (the exact outcome is in `ManifestStepResult`) |
| Steps.HtmlStep | index.js:132-144 | step 7 writes at most the page, creates no directory, and a failure changes nothing (the exact outcome is in `HtmlStepResult`) |
| Steps.FromManifest | index.js:121-144 | steps 6 and 7 write at most their two files, remove nothing and create no directory |
| Steps.FromPostcss | index.js:109-144 | steps 5 to 7 write at most their three files, remove nothing and create no directory |
| Steps.FromCss | index.js:102-144 | steps 4 to 7 write at most their four files, remove nothing and create at most the CSS directory and those above it |
| Steps.FromConfig | index.js:84-144 | steps 3 to 7 write at most their five files, remove nothing and create at most the CSS directory and those above it |
| Steps.Run | index.js:67-146 | the callback, with the names resolved from the answers, writes at most its five files, removes nothing and creates at most the CSS directory and those above it (consistency and failure cases in `RunStaysInItsFiles` and `SetsUpProject`) |
| Steps.ConfigStepResult | index.js:99 | step 3 succeeds exactly when the path is no directory and its parent exists; it then writes only the trimmed configuration; a failure changes nothing |
| Steps.CssStepResult | index.js:102-107 | for any CSS name: step 4 creates the directory only when nothing is there, and ENOTDIR with nothing changed when a file stands above it; it then succeeds exactly when the CSS path is no directory and the CSS file's own parent is a directory after the guard; each failure is classified; on success only the CSS file is written and the CSS directory exists; on failure no file changes; the disk stays consistent |
| Steps.DirHoldsCssFile | index.js:102-107 | a CSS file can be written only when the CSS directory exists |
| Steps.CssStepPlainName | index.js:102-107 | for a CSS name without `/`, step 4 succeeds exactly when the CSS path is no directory and the CSS directory exists or can be created; a file at the directory's path gives ENOTDIR |
| Steps.NestedCssNameFails | index.js:102-107 | for a CSS name `sub/name` whose subdirectory does not exist, step 4 fails with ENOENT even when `src/styles` exists or is created |
| Steps.PostcssStepResult | index.js:118 | step 5 succeeds exactly when the path is no directory and its parent exists, and then writes only the trimmed PostCSS configuration |
| Steps.ManifestStepResult | index.js:122-129 | step 6 succeeds exactly when package.json is a file whose text parses to an object or array; it then writes the serialised update and nothing else; a read failure gives its `fs` error, a parse failure the syntax error, a non-object value the TypeError of the `scripts` assignment |
| Steps.HtmlStepResult | index.js:133-144 | step 7 replaces an existing page by its patch, writes the template at a missing path whose directory exists, fails with EISDIR on a directory, and changes nothing else |
| Steps.HtmlStepLinksBuildOutput | index.js:133-144 | after a successful step 7 on a page with `</head>` or a new page, the page links the build output before its first `</head>` |
| Steps.CssStepKeepsValid | index.js:103-107 | step 4 keeps the disk consistent, writes only the CSS file and creates only the CSS directory and those above it |
| Steps.ConfigStepStays | index.js:99 | step 3 keeps the disk consistent and writes only tailwind.config.js |
| Steps.FromManifestStays | index.js:121-144 | steps 6 and 7 keep the disk consistent, write only their two files and leave the directories |
| Steps.FromPostcssStays | index.js:109-144 | steps 5 to 7 keep the disk consistent and write only their three files |
| Steps.FromCssStays | index.js:102-144 | steps 4 to 7 keep the disk consistent, write only their four files, create only the CSS directory and those above it |
| Steps.FromConfigStays | index.js:84-144 | steps 3 to 7 keep the disk consistent, write only their five files, create only the CSS directory and those above it |
| Steps.RunStaysInItsFiles | index.js:67-146 | whatever fails, the callback leaves a consistent disk, writes no file outside its five, removes no directory and creates none but the CSS directory and those above it |
| Steps.BesideCssDir | index.js:71 | a plain name other than `src` in the working directory is neither the CSS directory nor above it |
| Steps.NotCssFile | index.js:72 | a plain name in the working directory is not the CSS file |
| Steps.PathsApart | index.js:71-72 | the five paths of a run are distinct; four sit in the working directory, the CSS file in the CSS directory, none is the CSS directory or above it |
| Steps.TouchedBelowCssDir | index.js:71-72 | none of the five files is the CSS directory or above it |
| Steps.ReadyAfterCss | index.js:103-107 | a ready disk with only the CSS file written and the CSS directory and those above it created is ready |
| Steps.ReadyAfterWrite | index.js:99 | writing one of the five files keeps the working directory ready |
| Steps.ReadyConfig | index.js:99 | in a ready directory step 3 succeeds, writes exactly the configuration and keeps it ready |
| Steps.ReadyCss | index.js:103-107 | in a ready directory step 4 succeeds, writes exactly the CSS file, leaves the CSS directory in place and keeps it ready |
| Steps.ReadyPostcss | index.js:118 | in a ready directory step 5 succeeds, writes exactly the PostCSS configuration and keeps it ready |
| Steps.ReadyManifest | index.js:122-129 | in a ready directory with a usable package.json step 6 succeeds, writes exactly the updated manifest and keeps it ready |
| Steps.ReadyHtml | index.js:135-144 | in a ready directory step 7 succeeds and writes exactly the patched page or the template |
| Steps.FromManifestDone | index.js:121-144 | in a ready directory with a usable package.json, steps 6 and 7 succeed; the new files are the old ones with the manifest and page replaced |
| Steps.FromPostcssDone | index.js:109-144 | likewise for steps 5 to 7 and their three files |
| Steps.FromCssDone | index.js:102-144 | likewise for steps 4 to 7 and their four files, with the CSS directory in place |
| Steps.FromConfigDone | index.js:84-144 | likewise for steps 3 to 7: the disk afterwards is the old one with exactly the five files written |
| Steps.SetsUpProject | index.js:84-144 | in a ready directory with a usable package.json the run succeeds: trimmed configurations, CSS directives, updated manifest, and the patched page or the template |
| Scaffold.FileSystem.ExistsSync | index.js:103 | `existsSync` is true exactly when a file or directory is at the path |
| Scaffold.FileSystem.ReadFileSync | index.js:137 | `readFileSync` returns what `Disk.Read` gives: the file's text exactly when there is a file |
| Scaffold.FileSystem.WriteFileSync | index.js:99 | the new state and the error are those of `Disk.Write`; on success only the one file changes |
| Scaffold.FileSystem.MkdirSync | index.js:104 | the new state and the error are those of `Disk.MakeDirs`; on success the directory and those above it exist |
| Scaffold.FileSystem.CreateCssFile | index.js:19-28 | writes the directives to the path, with `Disk.Write`'s outcome |
| Scaffold.FileSystem.CreateHtmlFile | index.js:31-51 | writes the template, with `Disk.Write`'s outcome; on success the file holds one link before its first `</head>` |
| Scaffold.FileSystem.NpmCommands | index.js:74-82 | the npm commands for the current disk: `npm init -y` exactly when no package.json exists, then the install |
| Scaffold.FileSystem.UpdatePackageJson | index.js:121-129 | read, parse, merge and write back, leaving the state and failure that `Steps.ManifestStep` gives |
| Scaffold.FileSystem.UpdateHtml | index.js:132-144 | the existence check, then the patch or the template, leaving the state and failure that `Steps.HtmlStep` gives |
| Scaffold.FileSystem.SetUp | index.js:67-146 | the callback after npm, run with early exits, leaves the state and exception that `Steps.Run` gives; so the `Steps` lemmas describe what the program does |

## Left out

- Prompting (`inquirer.prompt`, index.js:54-66) is left out: the two answers are parameters.
- `console.log`, `console.error` and the `.catch` handler (index.js:147-149) are left out, because they only report.
- npm is left out. `runCommand`, `execSync` and `process.exit` (index.js:9-16, 77, 82) run external programs. `Commands` and `NpmCommands` list the commands that would run. `SetUp` starts from the disk as npm left it. A failing command exits the process before any file step, so no file step is modelled in that case.
- The text of package.json is left out. `JSON.parse` and `JSON.stringify(…, null, 2)` are the parameters `parse` and `stringify`, so key order and formatting are not modelled.
- `scripts` is modelled as a general JSON value, not as a map of strings. A package.json may hold any value there, and `{...}` of a string or array copies its index keys.
- Manifest.Spread: the ensures pin down the result exactly for objects and for `undefined`, `null`, booleans and numbers. For strings and arrays they pin down only the keys, through `IndexKeys`.
- Path normalisation is left out. `path.join` is plain concatenation with `/`, without Node's handling of `.`, `..` and doubled separators. Step 6 opens `./package.json` and steps 3 and 5 write `./tailwind.config.js` and `./postcss.config.js`; these are the same files as the working directory joined with those names, and that is how they are modelled.
- Disk.Write: when the parent directory is missing, the model reports ENOENT even if a directory further up is a file. Node reports ENOTDIR in that case.
- Disk.Read: likewise, a path whose parent is missing reads as ENOENT even if a directory further up is a file, where Node reports ENOTDIR.
- Steps.SetsUpProject: the successful run is stated for names without `/` and an HTML name that differs from the other files and from `src` (the `Ready` predicate). Other names are covered only by the step lemmas and `RunStaysInItsFiles`.
- File permissions, symbolic links, concurrency and character encoding are left out. Files hold `string` values, and `'utf-8'` decoding is not modelled.
- Some descriptions of this tool promise behaviour that index.js does not have. The model follows the code in each case:
  - index.js never removes earlier stylesheet links;
  - it never skips the patch when a link is already present, which is why `PatchTwiceAddsTwoLinks` holds;
  - it always links `./dist/tailwind.css`, not the chosen CSS name;
  - it has no Prettier, ESLint or accessibility options.
