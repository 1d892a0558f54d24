/**
 * Step 6 of the scaffold (index.js:122-129): the parsed package.json gets a
 * `scripts` object equal to `{...packageJson.scripts, "build:css": command}`.
 * The JSON text itself (parsing and `JSON.stringify(…, null, 2)`) is outside
 * this module; it works on the parsed document.
 */
module Manifest {
  import opened Wrappers
  import opened Names

  /** A JSON document as `JSON.parse` returns it. */
  datatype Value =
    | Null
    | Bool(b: bool)
    | Number(n: real)
    | Str(s: string)
    | Array(items: seq<Value>)
    | Object(fields: map<string, Value>)

  /**
   * Why step 6 throws: in a module (strict mode) reading `scripts` of `null`
   * and assigning `scripts` on a boolean, number or string are TypeErrors.
   */
  datatype ManifestError = TypeError

  const ScriptsKey := "scripts"
  const BuildKey := "build:css"
  const BuildPrefix := "tailwindcss build "
  const OutputFlag := " -o "

  /**
   * The `build:css` command (index.js:126): it builds the CSS file under
   * src/styles named by the user and always writes dist/tailwind.css.
   */
  function BuildCommand(cssName: string): (r: string)
    ensures |r| == |BuildPrefix| + |CssInputPath(cssName)| + |OutputFlag + OutputPath|
    ensures r[..|BuildPrefix|] == BuildPrefix
    ensures r[|BuildPrefix|..|BuildPrefix| + |CssInputPath(cssName)|] == CssInputPath(cssName)
    ensures r[|r| - |OutputFlag + OutputPath|..] == OutputFlag + OutputPath
  {
    BuildPrefix + CssInputPath(cssName) + OutputFlag + OutputPath
  }

  /** Two CSS names give the same command only if they are the same name. */
  lemma BuildCommandInjective(a: string, b: string)
    requires BuildCommand(a) == BuildCommand(b)
    ensures a == b
  {
    var n := |BuildPrefix| + |CssDirName| + 1;
    assert |a| == |b|;
    assert a == BuildCommand(a)[n..n + |a|];
    assert b == BuildCommand(b)[n..n + |b|];
  }

  /** The decimal digits of `n`, as JavaScript writes an array or string index as a key. */
  function Decimal(n: nat): (r: string)
    ensures r != [] && forall k | 0 <= k < |r| :: '0' <= r[k] <= '9'
  {
    var d := [(48 + n % 10) as char];
    if n < 10 then d else Decimal(n / 10) + d
  }

  /** The own keys "0", "1", … of an array-like value mapped to its elements. */
  function IndexKeys(items: seq<Value>): (r: map<string, Value>)
    ensures r.Keys == set i | 0 <= i < |items| :: Decimal(i)
  {
    if items == [] then map[]
    else
      var n := |items| - 1;
      var r := IndexKeys(items[..n])[Decimal(n) := items[n]];
      assert (set i | 0 <= i < n + 1 :: Decimal(i)) == (set i | 0 <= i < n :: Decimal(i)) + {Decimal(n)};
      r
  }

  /**
   * The properties that `{...v}` copies out of `v`, with None standing for
   * `undefined`: an object's fields; a string's characters or an array's
   * elements under their index keys; nothing from `undefined`, `null`, a
   * boolean or a number.
   */
  function Spread(v: Option<Value>): (r: map<string, Value>)
    ensures v.Some? && v.value.Object? ==> r == v.value.fields
    ensures v.None? || v.value.Null? || v.value.Bool? || v.value.Number? ==> r == map[]
  {
    match v
    case None => map[]
    case Some(Object(fields)) => fields
    case Some(Str(s)) => IndexKeys(seq(|s|, i requires 0 <= i < |s| => Str([s[i]])))
    case Some(Array(items)) => IndexKeys(items)
    case Some(_) => map[]
  }

  /** `{...scripts, "build:css": command}`: the old scripts with `build:css` set, added or overwritten. */
  function MergeScripts(scripts: Option<Value>, command: string): (r: map<string, Value>)
    ensures r.Keys == Spread(scripts).Keys + {BuildKey}
    ensures r[BuildKey] == Str(command)
    ensures forall k | k in Spread(scripts) && k != BuildKey :: r[k] == Spread(scripts)[k]
  {
    Spread(scripts)[BuildKey := Str(command)]
  }

  /** The `scripts` property of an object, None when it has none (it reads as `undefined`). */
  function Get(fields: map<string, Value>, key: string): Option<Value>
  {
    if key in fields then Some(fields[key]) else None
  }

  /**
   * Step 6 on the parsed manifest. An object gets its merged `scripts`; an
   * array takes the new property, which `JSON.stringify` does not write, so
   * the saved document is the same; `null` and the primitives throw.
   */
  function UpdateManifest(doc: Value, cssName: string): (r: Result<Value, ManifestError>)
    ensures r.Ok? <==> doc.Object? || doc.Array?
    ensures doc.Array? ==> r == Ok(doc)
    ensures doc.Object? ==> r.value.Object? && r.value.fields.Keys == doc.fields.Keys + {ScriptsKey}
    ensures doc.Object? ==>
      forall k | k in doc.fields && k != ScriptsKey :: r.value.fields[k] == doc.fields[k]
  {
    match doc
    case Object(fields) =>
      Ok(Object(fields[ScriptsKey := Object(MergeScripts(Get(fields, ScriptsKey), BuildCommand(cssName)))]))
    case Array(_) => Ok(doc)
    case _ => Err(TypeError)
  }

  /**
   * The `scripts` object after step 6: `build:css` runs the build command for
   * the chosen CSS name, every other script the manifest had is still there
   * with its old value, and no other script appears.
   */
  lemma ScriptsAfterUpdate(fields: map<string, Value>, cssName: string)
    ensures var r := UpdateManifest(Object(fields), cssName);
      && r.Ok? && r.value.Object? && ScriptsKey in r.value.fields
      && r.value.fields[ScriptsKey].Object?
      && var scripts := r.value.fields[ScriptsKey].fields;
      && scripts[BuildKey] == Str(BuildCommand(cssName))
      && (ScriptsKey !in fields ==> scripts.Keys == {BuildKey})
      && (ScriptsKey in fields && fields[ScriptsKey].Object? ==>
            && scripts.Keys == fields[ScriptsKey].fields.Keys + {BuildKey}
            && forall k | k in fields[ScriptsKey].fields && k != BuildKey ::
                 scripts[k] == fields[ScriptsKey].fields[k])
  {
  }

  /** Running step 6 again with the same CSS name leaves the manifest as it is. */
  lemma UpdateIdempotent(doc: Value, cssName: string)
    requires UpdateManifest(doc, cssName).Ok?
    ensures UpdateManifest(UpdateManifest(doc, cssName).value, cssName) == UpdateManifest(doc, cssName)
  {
    if doc.Object? {
      var once := UpdateManifest(doc, cssName).value;
      var s1 := once.fields[ScriptsKey].fields;
      var twice := UpdateManifest(once, cssName).value;
      assert twice.fields[ScriptsKey].fields == s1;
      assert twice.fields == once.fields;
    }
  }

  /** A later run with another CSS name replaces the earlier `build:css`: the last name wins. */
  lemma LastBuildWins(doc: Value, a: string, b: string)
    requires UpdateManifest(doc, a).Ok?
    ensures UpdateManifest(UpdateManifest(doc, a).value, b) == UpdateManifest(doc, b)
  {
    if doc.Object? {
      var viaA := UpdateManifest(UpdateManifest(doc, a).value, b).value;
      var direct := UpdateManifest(doc, b).value;
      assert viaA.fields[ScriptsKey].fields == direct.fields[ScriptsKey].fields;
      assert viaA.fields == direct.fields;
    }
  }

  /**
   * A manifest `{"scripts": {"test": t}, "other": o}` keeps `test` and
   * `other` as they were and gains `build:css`.
   */
  lemma KeepsForeignScripts(t: Value, o: Value, cssName: string)
    ensures UpdateManifest(Object(map["scripts" := Object(map["test" := t]), "other" := o]), cssName)
         == Ok(Object(map["scripts" := Object(map["test" := t, "build:css" := Str(BuildCommand(cssName))]),
                          "other" := o]))
  {
    var fields := map["scripts" := Object(map["test" := t]), "other" := o];
    var merged := MergeScripts(Get(fields, ScriptsKey), BuildCommand(cssName));
    assert merged == map["test" := t, "build:css" := Str(BuildCommand(cssName))];
    assert fields[ScriptsKey := Object(merged)] == map["scripts" := Object(merged), "other" := o];
  }
}
