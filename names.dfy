/**
 * File names and paths of the scaffold: the two prompt answers are trimmed
 * and fall back to a default when nothing is left (index.js:68-69), and the
 * paths built from them with `path.join` (index.js:71-72, 133).
 */
module Names {
  import opened Text

  const DefaultCssName := "tailwind.css"
  const DefaultHtmlName := "index.html"

  /** The CSS directory relative to the working directory, also the build command's input folder. */
  const CssDirName := "src/styles"

  /** Where the build command writes the generated stylesheet, relative to the working directory. */
  const OutputPath := "dist/tailwind.css"

  const ManifestName := "package.json"
  const TailwindConfigName := "tailwind.config.js"
  const PostcssConfigName := "postcss.config.js"

  /**
   * `answer.trim() || fallback`: an answer that is white space only (the empty
   * string is falsy) gives the fallback, any other answer gives its trimmed
   * text, which is the answer with the white space around it cut off.
   */
  function ResolveName(answer: string, fallback: string): (r: string)
    requires fallback != []
    ensures r != []
    ensures AllSpace(answer) ==> r == fallback
    ensures !AllSpace(answer) ==>
      exists i | 0 <= i <= |answer| - |r| ::
        answer[i..i + |r|] == r && AllSpace(answer[..i]) && AllSpace(answer[i + |r|..])
    ensures !AllSpace(answer) ==> r == Trim(answer)
  {
    TrimEmptyIffAllSpace(answer);
    TrimIsSlice(answer);
    var t := Trim(answer);
    if t != [] then t else fallback
  }

  /** The CSS file name: the trimmed answer, or "tailwind.css" for a blank one. */
  function CssFileName(answer: string): (r: string)
    ensures r != []
    ensures AllSpace(answer) ==> r == DefaultCssName
    ensures !AllSpace(answer) ==> r == Trim(answer)
  {
    ResolveName(answer, DefaultCssName)
  }

  /** The HTML file name: the trimmed answer, or "index.html" for a blank one. */
  function HtmlFileName(answer: string): (r: string)
    ensures r != []
    ensures AllSpace(answer) ==> r == DefaultHtmlName
    ensures !AllSpace(answer) ==> r == Trim(answer)
  {
    ResolveName(answer, DefaultHtmlName)
  }

  /** An answer that already is a clean name is taken as it is. */
  lemma CleanAnswerKept(answer: string)
    requires answer != [] && !IsSpace(answer[0]) && !IsSpace(answer[|answer| - 1])
    ensures CssFileName(answer) == answer && HtmlFileName(answer) == answer
  {
    assert !AllSpace(answer);
    assert TrimStart(answer) == answer;
    assert TrimEnd(answer) == answer;
  }

  /** Resolving a resolved name changes nothing: the defaults are themselves clean. */
  lemma ResolveStable(answer: string)
    ensures CssFileName(CssFileName(answer)) == CssFileName(answer)
    ensures HtmlFileName(HtmlFileName(answer)) == HtmlFileName(answer)
  {
    if AllSpace(answer) {
      assert DefaultCssName[0] == 't' && DefaultCssName[|DefaultCssName| - 1] == 's';
      assert DefaultHtmlName[0] == 'i' && DefaultHtmlName[|DefaultHtmlName| - 1] == 'l';
    }
    CleanAnswerKept(CssFileName(answer));
    CleanAnswerKept(HtmlFileName(answer));
  }

  /** `path.join(dir, name)`, without Node's normalisation of `.`, `..` and repeated separators. */
  function Join(dir: string, name: string): (r: string)
    ensures |r| == |dir| + 1 + |name| && r[..|dir|] == dir && r[|dir|] == '/' && r[|dir| + 1..] == name
  {
    dir + "/" + name
  }

  /** Two names joined to the same directory give the same path only if they are the same name. */
  lemma JoinInjective(dir: string, a: string, b: string)
    requires Join(dir, a) == Join(dir, b)
    ensures a == b
  {
    assert a == Join(dir, a)[|dir| + 1..];
  }

  /** The CSS directory under the working directory (index.js:71). */
  function CssDir(cwd: string): string
  {
    Join(cwd, CssDirName)
  }

  /** The CSS file path (index.js:72). */
  function CssFilePath(cwd: string, cssName: string): string
  {
    Join(CssDir(cwd), cssName)
  }

  /** The CSS path as the build command names it, relative to the working directory. */
  function CssInputPath(cssName: string): string
  {
    CssDirName + "/" + cssName
  }

  /**
   * The CSS file the scaffold writes is the very file the build command reads:
   * the command's relative input path resolved against the working directory.
   */
  lemma CssFileIsBuildInput(cwd: string, cssName: string)
    ensures CssFilePath(cwd, cssName) == Join(cwd, CssInputPath(cssName))
    ensures CssInputPath(cssName)[..|CssDirName| + 1] == "src/styles/"
  {
  }
}
