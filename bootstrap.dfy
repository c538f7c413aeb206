/** The standalone bootstrap: once the sandbox record has been fetched and
    decoded, its modules are gathered into a map keyed by path, a
    `/package.json` is generated if none is there, and a single compile
    request of version 3 is assembled. Path resolution and manifest generation
    are foreign collaborators, given as the two functions of a `Resolver`. */
module Bootstrap {

  /** A module of the fetched sandbox. */
  datatype Module = Module(id: string, shortid: string, title: string, directoryShortid: string, code: string)

  /** A directory of the fetched sandbox; modules and directories point at
      their parent directory by short id. */
  datatype Directory = Directory(shortid: string, title: string, directoryShortid: string)

  /** The decoded `data` field of the sandbox record. */
  datatype SandboxRecord = SandboxRecord(
    modules: seq<Module>,
    directories: seq<Directory>,
    entry: string,
    externalResources: seq<string>,
    npmDependencies: map<string, string>,
    template: string)

  /** A module as the compile manager expects it. */
  datatype ModuleEntry = ModuleEntry(path: string, code: string)

  /** The request handed to `compile` for a standalone sandbox. */
  datatype CompileRequest = CompileRequest(
    sandboxId: string,
    modules: map<string, ModuleEntry>,
    entry: string,
    externalResources: seq<string>,
    dependencies: map<string, string>,
    hasActions: bool,
    template: string,
    version: int)

  /** `getModulePath(modules, directories, id)` and
      `generateFileFromSandbox(data)`. */
  datatype Resolver = Resolver(
    modulePath: (seq<Module>, seq<Directory>, string) -> string,
    generatePackageJson: SandboxRecord -> string)

  const PackageJson: string := "/package.json"

  /** The computed path of the `i`th module, resolved against all modules and
      directories of the sandbox. */
  function PathOf(x: SandboxRecord, res: Resolver, i: nat): (path: string)
    requires i < |x.modules|
  {
    res.modulePath(x.modules, x.directories, x.modules[i].id)
  }

  /** The module object after the first `n` modules have been stored, each
      under its path, a later module replacing an earlier one of the same
      path. */
  function ModuleObject(x: SandboxRecord, res: Resolver, n: nat): (m: map<string, ModuleEntry>)
    requires n <= |x.modules|
    ensures |m| <= n
    ensures forall p | p in m :: m[p].path == p
  {
    if n == 0 then map[]
    else
      var path := PathOf(x, res, n - 1);
      ModuleObject(x, res, n - 1)[path := ModuleEntry(path, x.modules[n - 1].code)]
  }

  /** The module object holds exactly the computed paths of the stored
      modules. */
  lemma {:induction false} ModuleObjectKeys(x: SandboxRecord, res: Resolver, n: nat)
    requires n <= |x.modules|
    ensures ModuleObject(x, res, n).Keys == set i | 0 <= i < n :: PathOf(x, res, i)
  {
    if n > 0 {
      ModuleObjectKeys(x, res, n - 1);
      var before := set i | 0 <= i < n - 1 :: PathOf(x, res, i);
      var after := set i | 0 <= i < n :: PathOf(x, res, i);
      assert after == before + {PathOf(x, res, n - 1)} by {
        forall p | p in after ensures p in before + {PathOf(x, res, n - 1)} {
          var i :| 0 <= i < n && PathOf(x, res, i) == p;
          if i < n - 1 { assert p in before; }
        }
      }
    }
  }

  /** Every entry is stored under its own path, with the code of some module
      whose computed path it is. */
  lemma {:induction false} ModuleObjectEntries(x: SandboxRecord, res: Resolver, n: nat, p: string)
    requires n <= |x.modules|
    requires p in ModuleObject(x, res, n)
    ensures ModuleObject(x, res, n)[p].path == p
    ensures exists i :: 0 <= i < n && PathOf(x, res, i) == p && ModuleObject(x, res, n)[p].code == x.modules[i].code
  {
    if p != PathOf(x, res, n - 1) {
      ModuleObjectEntries(x, res, n - 1, p);
    }
  }

  /** A module that no later module shadows appears under its computed path
      with its code unchanged. */
  lemma {:induction false} ModuleObjectKeepsCode(x: SandboxRecord, res: Resolver, n: nat, i: nat)
    requires i < n <= |x.modules|
    requires forall j | i < j < n :: PathOf(x, res, j) != PathOf(x, res, i)
    ensures PathOf(x, res, i) in ModuleObject(x, res, n)
    ensures ModuleObject(x, res, n)[PathOf(x, res, i)] == ModuleEntry(PathOf(x, res, i), x.modules[i].code)
  {
    if i < n - 1 {
      ModuleObjectKeepsCode(x, res, n - 1, i);
    }
  }

  /** The module object with a generated `/package.json` added when, and only
      when, no module already provides one. */
  function WithPackageJson(m: map<string, ModuleEntry>, x: SandboxRecord, res: Resolver): (r: map<string, ModuleEntry>)
    ensures r.Keys == m.Keys + {PackageJson}
    ensures forall p | p in m :: r[p] == m[p]
    ensures PackageJson !in m ==> r[PackageJson] == ModuleEntry(PackageJson, res.generatePackageJson(x))
  {
    if PackageJson in m then m
    else m[PackageJson := ModuleEntry(PackageJson, res.generatePackageJson(x))]
  }

  /** Fills the module object key by key, then adds `/package.json` if it is
      missing. */
  method BuildModuleObject(x: SandboxRecord, res: Resolver) returns (moduleObject: map<string, ModuleEntry>)
    ensures moduleObject == WithPackageJson(ModuleObject(x, res, |x.modules|), x, res)
  {
    moduleObject := map[];
    var i := 0;
    while i < |x.modules|
      invariant i <= |x.modules|
      invariant moduleObject == ModuleObject(x, res, i)
    {
      var m := x.modules[i];
      var path := res.modulePath(x.modules, x.directories, m.id);
      moduleObject := moduleObject[path := ModuleEntry(path, m.code)];
      i := i + 1;
    }
    if PackageJson !in moduleObject {
      moduleObject := moduleObject[PackageJson := ModuleEntry(PackageJson, res.generatePackageJson(x))];
    }
  }

  /** The compile request of a standalone sandbox: always version 3, without
      actions, with the entry made absolute and everything else carried over
      from the record. */
  function AssembleRequest(id: string, x: SandboxRecord, moduleObject: map<string, ModuleEntry>): (r: CompileRequest)
    ensures r.version == 3 && !r.hasActions
    ensures |r.entry| == |x.entry| + 1 && r.entry[0] == '/' && r.entry[1..] == x.entry
    ensures r.sandboxId == id && r.modules == moduleObject && r.template == x.template
    ensures r.externalResources == x.externalResources && r.dependencies == x.npmDependencies
  {
    CompileRequest(
      sandboxId := id,
      modules := moduleObject,
      entry := "/" + x.entry,
      externalResources := x.externalResources,
      dependencies := x.npmDependencies,
      hasActions := false,
      template := x.template,
      version := 3)
  }

  /** The whole standalone request: every module that no later module shadows
      is present under its computed path with its code, a `/package.json`
      always exists and a module's own `/package.json` wins over the generated
      one. */
  lemma StandaloneRequestModules(id: string, x: SandboxRecord, res: Resolver, i: nat)
    requires i < |x.modules|
    requires forall j | i < j < |x.modules| :: PathOf(x, res, j) != PathOf(x, res, i)
    ensures var r := AssembleRequest(id, x, WithPackageJson(ModuleObject(x, res, |x.modules|), x, res));
      && PackageJson in r.modules
      && PathOf(x, res, i) in r.modules
      && r.modules[PathOf(x, res, i)] == ModuleEntry(PathOf(x, res, i), x.modules[i].code)
  {
    ModuleObjectKeepsCode(x, res, |x.modules|, i);
  }
}
