/** The driver's decisions before any data is read: which options are
    missing, which class a name refers to, whether the input glob matched,
    and which checkpoint to restore. */
module Config {

  import opened Errors

  /** What `getattr(module, name, None)` finds: some value, and whether
      Python treats it as true. */
  datatype Attribute = Attribute(qualifiedName: string, truthy: bool)

  /** A Python module, as the attributes it defines. */
  type PyModule = map<string, Attribute>

  /** The module defines `name` and its value is truthy. */
  predicate Provides(m: PyModule, name: string) {
    name in m && m[name].truthy
  }

  /** The value of `name` in the first module, in list order, that provides
      a truthy one; no such module is an error. */
  function FindClassByName(name: string, modules: seq<PyModule>): (r: Result<Attribute>)
    ensures r.Err? <==> forall i :: 0 <= i < |modules| ==> !Provides(modules[i], name)
    ensures r.Err? ==> r.error == ClassNotFound(name)
    ensures r.Ok? ==> exists i :: 0 <= i < |modules| && Provides(modules[i], name) && r.value == modules[i][name]
                                 && forall j :: 0 <= j < i ==> !Provides(modules[j], name)
  {
    if |modules| == 0 then Err(ClassNotFound(name))
    else if Provides(modules[0], name) then Ok(modules[0][name])
    else
      var r := FindClassByName(name, modules[1..]);
      assert forall j :: 1 <= j < |modules| ==> modules[j] == modules[1..][j - 1];
      r
  }

  /** Searching a list of modules is searching its front part and, only if
      that finds nothing, its back part. */
  lemma {:induction false} FindClassByNameAppend(name: string, front: seq<PyModule>, back: seq<PyModule>)
    ensures FindClassByName(name, front + back)
         == if FindClassByName(name, front).Ok? then FindClassByName(name, front) else FindClassByName(name, back)
    decreases |front|
  {
    if |front| > 0 {
      assert (front + back)[0] == front[0];
      if !Provides(front[0], name) {
        assert (front + back)[1..] == front[1..] + back;
        FindClassByNameAppend(name, front[1..], back);
      }
    } else {
      assert front + back == back;
    }
  }

  /** The two mandatory options: the output file is checked first, then the
      input pattern; an empty string counts as not given. */
  function ValidateOptions(outputFile: string, inputDataPattern: string): (r: Result<()>)
    ensures r.Ok? <==> outputFile != "" && inputDataPattern != ""
    ensures outputFile == "" ==> r == Err(MissingOutputFile)
    ensures outputFile != "" && inputDataPattern == "" ==> r == Err(MissingInputPattern)
  {
    if outputFile == "" then Err(MissingOutputFile)
    else if inputDataPattern == "" then Err(MissingInputPattern)
    else Ok(())
  }

  /** The files the input glob matched, rejected when there are none. */
  function CheckInputFiles(pattern: string, files: seq<string>): (r: Result<seq<string>>)
    ensures r.Err? <==> |files| == 0
    ensures r.Err? ==> r.error == NoInputFiles(pattern)
    ensures r.Ok? ==> r.value == files
  {
    if |files| == 0 then Err(NoInputFiles(pattern)) else Ok(files)
  }

  /** The checkpoint to restore. A non-empty explicit path wins and the
      train directory is not consulted; otherwise the directory's latest
      checkpoint, which `latest` stands for, is used, and its absence is an
      error naming the directory. */
  function ChooseCheckpoint(explicitPath: Option<string>, trainDir: string, latest: Option<string>): (r: Result<string>)
    ensures explicitPath.Some? && explicitPath.value != "" ==> r == Ok(explicitPath.value)
    ensures r.Err? <==> (explicitPath.None? || explicitPath.value == "") && latest.None?
    ensures r.Err? ==> r.error == NoCheckpoint(trainDir)
    ensures !(explicitPath.Some? && explicitPath.value != "") && latest.Some? ==> r == Ok(latest.value)
  {
    if explicitPath.Some? && explicitPath.value != "" then Ok(explicitPath.value)
    else if latest.Some? then Ok(latest.value)
    else Err(NoCheckpoint(trainDir))
  }
}
