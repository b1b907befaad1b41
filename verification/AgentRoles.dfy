/** Agent roles merged over configuration layers, lowest first.

    The role files are given already listed and parsed; names, texts and paths are
    opaque integers. */
module AgentRoles {
  import opened Common

  type Name = int

  datatype Role = Role(description: Option<int>, configFile: Option<int>, nicknames: Option<int>)

  /** A parsed role file. */
  datatype RoleFile = RoleFile(name: Name, description: Option<int>, nicknames: Option<int>)

  /** A role declared in a layer: its entry unless malformed, and its role file unless unreadable. */
  datatype Declaration = Declaration(name: Name, entry: Option<Role>, file: Option<RoleFile>)

  /** A file found in the layer's agents directory. */
  datatype FoundFile = FoundFile(path: int, parsed: Option<RoleFile>)

  datatype Agents = Absent | Invalid | Table(declarations: seq<Declaration>)

  /** One layer; `found` is unset for a layer without a configuration folder. */
  datatype Layer = Layer(agents: Agents, found: Option<seq<FoundFile>>)

  datatype Warning =
    | InvalidAgents
    | MalformedRole(declared: Name)
    | MalformedFile(path: int)
    | DuplicateInLayer(name: Name)
    | DuplicateInDirectory(name: Name)
    | MissingDescription(name: Name)

  type Roles = map<Name, Role>

  // ---- One layer ------------------------------------------------------------------

  /** A declared role under its final name: its role file wins over its entry. */
  function DeclaredRole(d: Declaration): Option<(Name, Role)> {
    if d.entry.None? then None
    else if d.entry.value.configFile.None? then Some((d.name, d.entry.value))
    else if d.file.None? then None
    else
      Some((d.file.value.name,
            d.entry.value.(description := OrElse(d.file.value.description, d.entry.value.description),
                           nicknames := OrElse(d.file.value.nicknames, d.entry.value.nicknames))))
  }

  function FoundRole(f: FoundFile): Option<(Name, Role)> {
    if f.parsed.None? then None
    else Some((f.parsed.value.name, Role(f.parsed.value.description, Some(f.path), f.parsed.value.nicknames)))
  }

  function AddFirst(roles: Roles, e: Option<(Name, Role)>): Roles {
    if e.None? || e.value.0 in roles then roles else roles[e.value.0 := e.value.1]
  }

  /** The first role of each name in a list. */
  function FirstOfName(entries: seq<Option<(Name, Role)>>): Roles {
    if entries == [] then map[] else AddFirst(FirstOfName(entries[..|entries| - 1]), entries[|entries| - 1])
  }

  function Declarations(layer: Layer): seq<Declaration> {
    if layer.agents.Table? then layer.agents.declarations else []
  }

  function DeclaredEntries(ds: seq<Declaration>): seq<Option<(Name, Role)>> {
    seq(|ds|, i requires 0 <= i < |ds| => DeclaredRole(ds[i]))
  }

  /** The role files named by declarations; they are not discovered a second time. */
  function DeclaredFiles(ds: seq<Declaration>): set<int> {
    if ds == [] then {} else DeclaredFiles(ds[..|ds| - 1]) + FileOf(DeclaredRole(ds[|ds| - 1]))
  }

  function FileOf(e: Option<(Name, Role)>): set<int> {
    if e.Some? && e.value.1.configFile.Some? then {e.value.1.configFile.value} else {}
  }

  function FoundEntries(fs: seq<FoundFile>, declared: set<int>): seq<Option<(Name, Role)>> {
    seq(|fs|, i requires 0 <= i < |fs| => if fs[i].path in declared then None else FoundRole(fs[i]))
  }

  /** The roles of one layer: declared roles first, then discovered ones whose name is free. */
  function LayerRoles(layer: Layer): Roles {
    var ds := Declarations(layer);
    var declared := FirstOfName(DeclaredEntries(ds));
    var found := if layer.found.Some? then FirstOfName(FoundEntries(layer.found.value, DeclaredFiles(ds))) else map[];
    found + declared
  }

  // ---- Layer upon layer -----------------------------------------------------------

  function Merged(role: Role, fallback: Role): Role {
    Role(OrElse(role.description, fallback.description),
         OrElse(role.configFile, fallback.configFile),
         OrElse(role.nicknames, fallback.nicknames))
  }

  /** What a layer's role becomes on top of the roles so far. */
  function OnTop(roles: Roles, name: Name, role: Role): Role {
    if name in roles then Merged(role, roles[name]) else role
  }

  /** The roles after a layer, name by name: a role without any description is dropped. */
  ghost predicate IsMerge(before: Roles, layer: Roles, after: Roles) {
    forall n :: Lookup(after, n) ==
      if n in layer && OnTop(before, n, layer[n]).description.Some? then Some(OnTop(before, n, layer[n]))
      else Lookup(before, n)
  }

  function MergeLayer(before: Roles, layer: Roles): Roles {
    before + map n | n in layer && OnTop(before, n, layer[n]).description.Some? :: OnTop(before, n, layer[n])
  }

  function MergeAll(layers: seq<Layer>): Roles {
    if layers == [] then map[] else MergeLayer(MergeAll(layers[..|layers| - 1]), LayerRoles(layers[|layers| - 1]))
  }

  // ---- The warnings, told from what a layer offers --------------------------------

  predicate WellFormed(d: Declaration) {
    d.entry.Some? && (d.entry.value.configFile.Some? ==> d.file.Some?)
  }

  /** The name a declared role ends up under: its role file, if it names one, decides. */
  function FinalName(d: Declaration): Name
    requires WellFormed(d)
  {
    if d.entry.value.configFile.Some? then d.file.value.name else d.name
  }

  predicate Declares(d: Declaration, n: Name) {
    WellFormed(d) && FinalName(d) == n
  }

  /** What is wrong with declaration `i`: it is malformed, or its name is taken by an earlier one. */
  function DeclaredProblem(ds: seq<Declaration>, i: nat): multiset<Warning>
    requires i < |ds|
  {
    if !WellFormed(ds[i]) then multiset{MalformedRole(ds[i].name)}
    else if exists j :: 0 <= j < i && Declares(ds[j], FinalName(ds[i])) then multiset{DuplicateInLayer(FinalName(ds[i]))}
    else multiset{}
  }

  function DeclaredWarnings(ds: seq<Declaration>, n: nat): multiset<Warning>
    requires n <= |ds|
  {
    if n == 0 then multiset{} else DeclaredWarnings(ds, n - 1) + DeclaredProblem(ds, n - 1)
  }

  /** An unclaimed readable file of the name. */
  predicate Holds(f: FoundFile, declared: set<int>, n: Name) {
    f.path !in declared && f.parsed.Some? && f.parsed.value.name == n
  }

  /** What is wrong with file `i`, if no declaration claims it: it is unreadable, or its name is taken
      by an earlier file. */
  function FoundProblem(fs: seq<FoundFile>, declared: set<int>, i: nat): multiset<Warning>
    requires i < |fs|
  {
    if fs[i].path in declared then multiset{}
    else if fs[i].parsed.None? then multiset{MalformedFile(fs[i].path)}
    else if exists j :: 0 <= j < i && Holds(fs[j], declared, fs[i].parsed.value.name)
    then multiset{DuplicateInDirectory(fs[i].parsed.value.name)}
    else multiset{}
  }

  function FoundWarnings(fs: seq<FoundFile>, declared: set<int>, n: nat): multiset<Warning>
    requires n <= |fs|
  {
    if n == 0 then multiset{} else FoundWarnings(fs, declared, n - 1) + FoundProblem(fs, declared, n - 1)
  }

  function TableWarnings(layer: Layer, w: Warning): nat {
    DeclaredWarnings(Declarations(layer), |Declarations(layer)|)[w] + if w.InvalidAgents? && layer.agents.Invalid? then 1 else 0
  }

  /** How often reading the layer gives a warning: for its declarations and files, and for every name
      that is both declared and found. */
  function WarningsOf(layer: Layer, w: Warning): nat {
    var ds := Declarations(layer);
    TableWarnings(layer, w)
    + if layer.found.None? then 0 else
        var fs, claimed := layer.found.value, DeclaredFiles(ds);
        FoundWarnings(fs, claimed, |fs|)[w]
        + if && w.DuplicateInLayer? && (exists i :: 0 <= i < |ds| && Declares(ds[i], w.name))
             && (exists i :: 0 <= i < |fs| && Holds(fs[i], claimed, w.name))
          then 1 else 0
  }

  lemma DeclaredNames(ds: seq<Declaration>, k: nat, n: Name)
    requires k <= |ds|
    ensures n in FirstOfName(DeclaredEntries(ds)[..k]) <==> exists j :: 0 <= j < k && Declares(ds[j], n)
  {
    var entries := DeclaredEntries(ds)[..k];
    NamesOfFirst(entries, n);
    assert forall j :: 0 <= j < k ==> (Declares(ds[j], n) <==> entries[j].Some? && entries[j].value.0 == n);
  }

  lemma FoundNames(fs: seq<FoundFile>, declared: set<int>, k: nat, n: Name)
    requires k <= |fs|
    ensures n in FirstOfName(FoundEntries(fs, declared)[..k]) <==> exists j :: 0 <= j < k && Holds(fs[j], declared, n)
  {
    var entries := FoundEntries(fs, declared)[..k];
    NamesOfFirst(entries, n);
    assert forall j :: 0 <= j < k ==> (Holds(fs[j], declared, n) <==> entries[j].Some? && entries[j].value.0 == n);
  }

  // ---- The loader -----------------------------------------------------------------

  method MergeMissingRoleFields(role: Role, fallback: Role) returns (merged: Role)
    ensures merged == Merged(role, fallback)
  {
    merged := role;
    if merged.description.None? {
      merged := merged.(description := fallback.description);
    }
    if merged.configFile.None? {
      merged := merged.(configFile := fallback.configFile);
    }
    if merged.nicknames.None? {
      merged := merged.(nicknames := fallback.nicknames);
    }
  }

  /** No warning is about a missing description. */
  ghost predicate NoneMissing(warnings: multiset<Warning>) {
    forall n :: warnings[MissingDescription(n)] == 0
  }

  /** The files of the directory that no declaration has claimed. */
  function Unclaimed(files: seq<FoundFile>, declared: set<int>): nat {
    if files == [] then 0 else
      Unclaimed(files[..|files| - 1], declared) + if files[|files| - 1].path in declared then 0 else 1
  }

  /** What the loop has made of the first `i` files. */
  ghost predicate FoundSoFar(files: seq<FoundFile>, declared: set<int>, i: nat, roles: Roles, warnings: multiset<Warning>) {
    && i <= |files| && roles == FirstOfName(FoundEntries(files, declared)[..i]) && warnings == FoundWarnings(files, declared, i)
    && |roles| + |warnings| == Unclaimed(files[..i], declared) && NoneMissing(warnings)
  }

  lemma FoundRolesNext(files: seq<FoundFile>, declared: set<int>, i: nat)
    requires i < |files|
    ensures
      var entries := FoundEntries(files, declared);
      && FirstOfName(entries[..i + 1]) == AddFirst(FirstOfName(entries[..i]), entries[i])
      && Unclaimed(files[..i + 1], declared) == Unclaimed(files[..i], declared) + if files[i].path in declared then 0 else 1
  {
    assert files[..i + 1][..i] == files[..i];
    var entries := FoundEntries(files, declared);
    assert entries[..i + 1][..i] == entries[..i];
  }

  /** A file that is no role is warned about, exactly once. */
  lemma FoundOnce(files: seq<FoundFile>, declared: set<int>, i: nat, roles: Roles)
    requires i < |files| && roles == FirstOfName(FoundEntries(files, declared)[..i])
    ensures
      var e, problem := FoundEntries(files, declared)[i], FoundProblem(files, declared, i);
      |AddFirst(roles, e)| + |problem| == |roles| + (if files[i].path in declared then 0 else 1) && NoneMissing(problem)
  {
    if files[i].parsed.Some? {
      FoundNames(files, declared, i, files[i].parsed.value.name);
    }
  }

  lemma FoundNext(files: seq<FoundFile>, declared: set<int>, i: nat, roles: Roles, warnings: multiset<Warning>)
    requires i < |files| && FoundSoFar(files, declared, i, roles, warnings)
    ensures
      var e := FoundEntries(files, declared)[i];
      FoundSoFar(files, declared, i + 1, AddFirst(roles, e), warnings + FoundProblem(files, declared, i))
  {
    FoundRolesNext(files, declared, i);
    FoundOnce(files, declared, i, roles);
    MoreWarnings(warnings, FoundProblem(files, declared, i));
  }

  lemma MoreWarnings(warnings: multiset<Warning>, more: multiset<Warning>)
    requires NoneMissing(warnings) && NoneMissing(more)
    ensures |warnings + more| == |warnings| + |more| && NoneMissing(warnings + more)
  {
  }

  /** Read one file: the first unclaimed one of a name becomes a role, any other unclaimed one is
      warned about. */
  method TakeFile(files: seq<FoundFile>, declared: set<int>, i: nat, before: Roles, warningsBefore: multiset<Warning>)
    returns (roles: Roles, warnings: multiset<Warning>)
    requires i < |files| && FoundSoFar(files, declared, i, before, warningsBefore)
    ensures FoundSoFar(files, declared, i + 1, roles, warnings)
  {
    roles, warnings := before, warningsBefore;
    FoundNext(files, declared, i, roles, warnings);
    var file := files[i];
    if file.path in declared {
      return;
    }
    if file.parsed.None? {
      return roles, warnings + multiset{MalformedFile(file.path)};
    }
    var parsed := file.parsed.value;
    FoundNames(files, declared, i, parsed.name);
    if parsed.name in roles {
      return roles, warnings + multiset{DuplicateInDirectory(parsed.name)};
    }
    roles := roles[parsed.name := Role(parsed.description, Some(file.path), parsed.nicknames)];
  }

  /** Every unclaimed file becomes a role or is warned about. */
  method DiscoverAgentRolesInDir(files: seq<FoundFile>, declared: set<int>) returns (roles: Roles, warnings: multiset<Warning>)
    ensures roles == FirstOfName(FoundEntries(files, declared))
    ensures warnings == FoundWarnings(files, declared, |files|)
    ensures |roles| + |warnings| == Unclaimed(files, declared) && NoneMissing(warnings)
  {
    roles, warnings := map[], multiset{};
    for i := 0 to |files|
      invariant FoundSoFar(files, declared, i, roles, warnings)
    {
      roles, warnings := TakeFile(files, declared, i, roles, warnings);
    }
    assert FoundEntries(files, declared)[..|files|] == FoundEntries(files, declared);
    assert files[..|files|] == files;
  }

  lemma DeclaredNext(ds: seq<Declaration>, i: nat)
    requires i < |ds|
    ensures FirstOfName(DeclaredEntries(ds)[..i + 1]) == AddFirst(FirstOfName(DeclaredEntries(ds)[..i]), DeclaredRole(ds[i]))
    ensures DeclaredFiles(ds[..i + 1]) == DeclaredFiles(ds[..i]) + FileOf(DeclaredRole(ds[i]))
  {
    assert DeclaredEntries(ds)[..i + 1][..i] == DeclaredEntries(ds)[..i];
    assert ds[..i + 1][..i] == ds[..i];
  }

  lemma OneMoreWarning(warnings: multiset<Warning>, w: Warning)
    requires NoneMissing(warnings) && !w.MissingDescription?
    ensures |warnings + multiset{w}| == |warnings| + 1 && NoneMissing(warnings + multiset{w})
  {
  }

  /** What the loop has made of the first `i` declarations. */
  ghost predicate DeclaredSoFar(ds: seq<Declaration>, i: nat, roles: Roles, files: set<int>, warnings: multiset<Warning>) {
    && i <= |ds| && roles == FirstOfName(DeclaredEntries(ds)[..i]) && files == DeclaredFiles(ds[..i])
    && warnings == DeclaredWarnings(ds, i) && |roles| + |warnings| == i && NoneMissing(warnings)
  }

  lemma DeclaredWarned(ds: seq<Declaration>, i: nat, roles: Roles, files: set<int>, warnings: multiset<Warning>, w: Warning)
    requires i < |ds| && DeclaredSoFar(ds, i, roles, files, warnings)
    requires
      var entry := DeclaredRole(ds[i]);
      if entry.None? then w == MalformedRole(ds[i].name) else entry.value.0 in roles && w == DuplicateInLayer(entry.value.0)
    ensures DeclaredSoFar(ds, i + 1, roles, files + FileOf(DeclaredRole(ds[i])), warnings + multiset{w})
  {
    DeclaredNext(ds, i);
    if WellFormed(ds[i]) {
      DeclaredNames(ds, i, FinalName(ds[i]));
    }
    OneMoreWarning(warnings, w);
  }

  lemma DeclaredAdded(ds: seq<Declaration>, i: nat, roles: Roles, files: set<int>, warnings: multiset<Warning>)
    requires i < |ds| && DeclaredSoFar(ds, i, roles, files, warnings)
    requires var entry := DeclaredRole(ds[i]); entry.Some? && entry.value.0 !in roles
    ensures
      var entry := DeclaredRole(ds[i]);
      DeclaredSoFar(ds, i + 1, roles[entry.value.0 := entry.value.1], files + FileOf(entry), warnings)
  {
    DeclaredNext(ds, i);
    DeclaredNames(ds, i, FinalName(ds[i]));
  }

  /** Read one declaration: the first under a name becomes a role, any other is warned about. */
  method TakeDeclaration(ds: seq<Declaration>, i: nat, before: Roles, filesBefore: set<int>, warningsBefore: multiset<Warning>)
    returns (roles: Roles, files: set<int>, warnings: multiset<Warning>)
    requires i < |ds| && DeclaredSoFar(ds, i, before, filesBefore, warningsBefore)
    ensures DeclaredSoFar(ds, i + 1, roles, files, warnings)
  {
    roles, files, warnings := before, filesBefore, warningsBefore;
    var entry := DeclaredRole(ds[i]);
    if entry.None? {
      DeclaredWarned(ds, i, roles, files, warnings, MalformedRole(ds[i].name));
      return roles, files + FileOf(entry), warnings + multiset{MalformedRole(ds[i].name)};
    }
    var (name, role) := entry.value;
    files := files + FileOf(entry);
    if name in roles {
      DeclaredWarned(ds, i, roles, filesBefore, warnings, DuplicateInLayer(name));
      return roles, files, warnings + multiset{DuplicateInLayer(name)};
    }
    DeclaredAdded(ds, i, roles, filesBefore, warnings);
    roles := roles[name := role];
  }

  /** The declared roles of a layer and the role files they name; every declaration becomes a role
      or is warned about. */
  method ReadDeclaredRoles(ds: seq<Declaration>) returns (roles: Roles, files: set<int>, warnings: multiset<Warning>)
    ensures roles == FirstOfName(DeclaredEntries(ds))
    ensures files == DeclaredFiles(ds)
    ensures warnings == DeclaredWarnings(ds, |ds|)
    ensures |roles| + |warnings| == |ds| && NoneMissing(warnings)
  {
    roles, files, warnings := map[], {}, multiset{};
    for i := 0 to |ds|
      invariant DeclaredSoFar(ds, i, roles, files, warnings)
    {
      roles, files, warnings := TakeDeclaration(ds, i, roles, files, warnings);
    }
    assert ds[..|ds|] == ds;
    assert DeclaredEntries(ds)[..|ds|] == DeclaredEntries(ds);
  }

  /** What a layer offers: its declarations, its unclaimed files, and an unreadable table. */
  function Definitions(layer: Layer): nat {
    |Declarations(layer)|
    + (if layer.agents.Invalid? then 1 else 0)
    + (if layer.found.Some? then Unclaimed(layer.found.value, DeclaredFiles(Declarations(layer))) else 0)
  }

  /** The found roles outside `rest` are in, unless declared. */
  ghost predicate AddedBut(declared: Roles, found: Roles, rest: set<Name>, roles: Roles) {
    forall n :: Lookup(roles, n) ==
      (if n in declared then Some(declared[n]) else if n in found && n !in rest then Some(found[n]) else None)
  }

  lemma AddedOne(declared: Roles, found: Roles, rest: set<Name>, roles: Roles, n: Name)
    requires AddedBut(declared, found, rest, roles) && n in rest && n in found
    ensures n in roles ==> AddedBut(declared, found, rest - {n}, roles)
    ensures n !in roles ==> AddedBut(declared, found, rest - {n}, roles[n := found[n]])
  {
    assert Lookup(roles, n).Some? <==> n in roles;
    assert n in roles ==> n in declared;
    forall k ensures n !in roles ==> Lookup(roles[n := found[n]], k) == if k == n then Some(found[n]) else Lookup(roles, k) {
    }
  }

  /** Add discovered roles whose name is free; each of the others is warned about. */
  method AddFoundRoles(declared: Roles, found: Roles) returns (layerRoles: Roles, warnings: multiset<Warning>)
    ensures layerRoles == found + declared
    ensures forall w :: warnings[w] == if w.DuplicateInLayer? && w.name in declared && w.name in found then 1 else 0
    ensures |layerRoles| + |warnings| == |declared| + |found| && NoneMissing(warnings)
  {
    layerRoles, warnings := declared, multiset{};
    var rest := found.Keys;
    while exists n :: n in rest
      invariant rest <= found.Keys
      invariant |layerRoles| + |warnings| + |rest| == |declared| + |found| && NoneMissing(warnings)
      invariant AddedBut(declared, found, rest, layerRoles)
      invariant forall w :: warnings[w] ==
                  if w.DuplicateInLayer? && w.name in declared && w.name in found && w.name !in rest then 1 else 0
      decreases rest
    {
      var n :| n in rest;
      AddedOne(declared, found, rest, layerRoles, n);
      rest := rest - {n};
      if n in layerRoles {
        warnings := warnings + multiset{DuplicateInLayer(n)};
        continue;
      }
      layerRoles := layerRoles[n := found[n]];
    }
    forall n ensures Lookup(layerRoles, n) == Lookup(found + declared, n) {
      assert n !in rest;
    }
    SameLookups(layerRoles, found + declared);
    NoneLeft(rest);
  }

  /** The names both declared and found in a layer. */
  lemma BothNames(layer: Layer, n: Name)
    requires layer.found.Some?
    ensures
      var ds, fs := Declarations(layer), layer.found.value;
      var claimed := DeclaredFiles(ds);
      && (n in FirstOfName(DeclaredEntries(ds)) <==> exists i :: 0 <= i < |ds| && Declares(ds[i], n))
      && (n in FirstOfName(FoundEntries(fs, claimed)) <==> exists i :: 0 <= i < |fs| && Holds(fs[i], claimed, n))
  {
    var ds, fs := Declarations(layer), layer.found.value;
    var claimed := DeclaredFiles(ds);
    assert DeclaredEntries(ds)[..|ds|] == DeclaredEntries(ds);
    DeclaredNames(ds, |ds|, n);
    assert FoundEntries(fs, claimed)[..|fs|] == FoundEntries(fs, claimed);
    FoundNames(fs, claimed, |fs|, n);
  }

  lemma WarningsAddUp(layer: Layer, w: Warning, declared: Roles, found: Roles)
    requires layer.found.Some? && declared == FirstOfName(DeclaredEntries(Declarations(layer)))
    requires found == FirstOfName(FoundEntries(layer.found.value, DeclaredFiles(Declarations(layer))))
    ensures
      var ds, fs := Declarations(layer), layer.found.value;
      WarningsOf(layer, w) ==
        TableWarnings(layer, w) + FoundWarnings(fs, DeclaredFiles(ds), |fs|)[w]
        + if w.DuplicateInLayer? && w.name in declared && w.name in found then 1 else 0
  {
    if w.DuplicateInLayer? {
      BothNames(layer, w.name);
    }
  }

  lemma WarningsTogether(layer: Layer, declared: Roles, found: Roles,
                         tableWarnings: multiset<Warning>, foundWarnings: multiset<Warning>, addWarnings: multiset<Warning>)
    requires layer.found.Some? && declared == FirstOfName(DeclaredEntries(Declarations(layer)))
    requires found == FirstOfName(FoundEntries(layer.found.value, DeclaredFiles(Declarations(layer))))
    requires forall w :: tableWarnings[w] == TableWarnings(layer, w)
    requires foundWarnings == FoundWarnings(layer.found.value, DeclaredFiles(Declarations(layer)), |layer.found.value|)
    requires forall w :: addWarnings[w] == if w.DuplicateInLayer? && w.name in declared && w.name in found then 1 else 0
    ensures forall w :: (tableWarnings + foundWarnings + addWarnings)[w] == WarningsOf(layer, w)
  {
    forall w ensures (tableWarnings + foundWarnings + addWarnings)[w] == WarningsOf(layer, w) {
      WarningsAddUp(layer, w, declared, found);
    }
  }

  /** The declared roles of a layer, with a warning if its table is unreadable. */
  method ReadTable(layer: Layer) returns (declared: Roles, files: set<int>, warnings: multiset<Warning>)
    ensures declared == FirstOfName(DeclaredEntries(Declarations(layer))) && files == DeclaredFiles(Declarations(layer))
    ensures forall w :: warnings[w] == TableWarnings(layer, w)
    ensures |declared| + |warnings| == |Declarations(layer)| + (if layer.agents.Invalid? then 1 else 0) && NoneMissing(warnings)
  {
    declared, files, warnings := ReadDeclaredRoles(Declarations(layer));
    if layer.agents.Invalid? {
      warnings := warnings + multiset{InvalidAgents};
    }
  }

  /** The roles of a layer; nothing it offers is dropped without its own warning. */
  method ReadLayer(layer: Layer) returns (layerRoles: Roles, warnings: multiset<Warning>)
    ensures layerRoles == LayerRoles(layer)
    ensures forall w :: warnings[w] == WarningsOf(layer, w)
    ensures |layerRoles| + |warnings| == Definitions(layer) && NoneMissing(warnings)
  {
    var declared, files, tableWarnings := ReadTable(layer);
    if layer.found.None? {
      assert map[] + declared == declared;
      return declared, tableWarnings;
    }
    var found, foundWarnings := DiscoverAgentRolesInDir(layer.found.value, files);
    var addWarnings;
    layerRoles, addWarnings := AddFoundRoles(declared, found);
    warnings := tableWarnings + foundWarnings + addWarnings;
    MoreWarnings(tableWarnings, foundWarnings);
    MoreWarnings(tableWarnings + foundWarnings, addWarnings);
    WarningsTogether(layer, declared, found, tableWarnings, foundWarnings, addWarnings);
  }

  /** Merge one layer; a role left without description is dropped with a warning. */
  method MergeRoles(before: Roles, layer: Roles) returns (after: Roles, warnings: multiset<Warning>)
    ensures IsMerge(before, layer, after)
    ensures forall w :: warnings[w] ==
              if w.MissingDescription? && w.name in layer && OnTop(before, w.name, layer[w.name]).description.None? then 1 else 0
  {
    after, warnings := before, multiset{};
    var rest := layer.Keys;
    while exists n :: n in rest
      invariant rest <= layer.Keys
      invariant forall n :: n in layer && n !in rest && OnTop(before, n, layer[n]).description.Some? ==>
                  Lookup(after, n) == Some(OnTop(before, n, layer[n]))
      invariant forall n :: !(n in layer && n !in rest && OnTop(before, n, layer[n]).description.Some?) ==>
                  Lookup(after, n) == Lookup(before, n)
      invariant forall w :: warnings[w] ==
                  if && w.MissingDescription? && w.name in layer && w.name !in rest
                     && OnTop(before, w.name, layer[w.name]).description.None? then 1 else 0
      decreases rest
    {
      var n :| n in rest;
      rest := rest - {n};
      var merged := layer[n];
      if n in after {
        assert Lookup(after, n) == Lookup(before, n);
        merged := MergeMissingRoleFields(merged, after[n]);
      } else {
        assert Lookup(after, n) == Lookup(before, n);
      }
      assert merged == OnTop(before, n, layer[n]);
      if merged.description.None? {
        warnings := warnings + multiset{MissingDescription(n)};
        continue;
      }
      after := after[n := merged];
    }
    assert forall n :: n !in rest;
  }

  lemma NoneLeft<T(!new)>(s: set<T>)
    requires forall x :: x !in s
    ensures |s| == 0
  {
    assert s == {};
  }

  lemma SameLookups(a: Roles, b: Roles)
    requires forall n :: Lookup(a, n) == Lookup(b, n)
    ensures a == b
  {
    forall n | n in a ensures n in b && a[n] == b[n] {
      assert Lookup(a, n) == Lookup(b, n);
    }
    forall n | n in b ensures n in a {
      assert Lookup(a, n) == Lookup(b, n);
    }
  }

  lemma MergeUnique(before: Roles, layer: Roles, after: Roles)
    requires IsMerge(before, layer, after)
    ensures after == MergeLayer(before, layer)
  {
    forall n ensures Lookup(after, n) == Lookup(MergeLayer(before, layer), n) {
    }
    SameLookups(after, MergeLayer(before, layer));
  }

  // ---- The closed form ------------------------------------------------------------

  datatype Field = Description | ConfigFile | Nicknames

  function Get(role: Role, f: Field): Option<int> {
    match f
    case Description => role.description
    case ConfigFile => role.configFile
    case Nicknames => role.nicknames
  }

  /** What the layers say about one role, lowest first. */
  function Said(layers: seq<Layer>, n: Name): seq<Option<Role>> {
    seq(|layers|, i requires 0 <= i < |layers| => Lookup(LayerRoles(layers[i]), n))
  }

  function Setting(said: seq<Option<Role>>, i: nat, f: Field): Option<int>
    requires i < |said|
  {
    if said[i].Some? then Get(said[i].value, f) else None
  }

  /** Entry `first` is the lowest that gives the role a description. */
  ghost predicate FirstDescribed(said: seq<Option<Role>>, first: nat) {
    && first < |said| && Setting(said, first, Description).Some?
    && forall i :: 0 <= i < first ==> Setting(said, i, Description).None?
  }

  /** `v` is what the highest entry at or above `first` that sets the field says. */
  ghost predicate SetHighest(said: seq<Option<Role>>, f: Field, first: nat, v: Option<int>) {
    if v.None? then forall i :: first <= i < |said| ==> Setting(said, i, f).None?
    else exists i: nat :: first <= i < |said| && Setting(said, i, f) == v &&
           forall j :: i < j < |said| ==> Setting(said, j, f).None?
  }

  /** The merge of one role's entries. */
  function Stack(said: seq<Option<Role>>): Option<Role> {
    if said == [] then None else
      PutOn(Stack(said[..|said| - 1]), said[|said| - 1])
  }

  /** One more entry on top of the merge of the others. */
  function PutOn(below: Option<Role>, top: Option<Role>): Option<Role> {
    if top.None? then below else
      var role := if below.Some? then Merged(top.value, below.value) else top.value;
      if role.description.Some? then Some(role) else below
  }

  lemma StackNext(said: seq<Option<Role>>, top: Option<Role>)
    ensures Stack(said + [top]) == PutOn(Stack(said), top)
  {
    assert (said + [top])[..|said|] == said;
  }

  lemma MergeLayerAt(before: Roles, layer: Roles, n: Name)
    ensures Lookup(MergeLayer(before, layer), n) == PutOn(Lookup(before, n), Lookup(layer, n))
  {
  }

  /** The merge treats every role on its own. */
  lemma {:induction false} MergeAllIsStack(layers: seq<Layer>, n: Name)
    ensures Lookup(MergeAll(layers), n) == Stack(Said(layers, n))
  {
    if layers != [] {
      var init := layers[..|layers| - 1];
      MergeAllIsStack(init, n);
      MergeLayerAt(MergeAll(init), LayerRoles(layers[|layers| - 1]), n);
      assert Said(layers, n) == Said(init, n) + [Lookup(LayerRoles(layers[|layers| - 1]), n)];
      StackNext(Said(init, n), Lookup(LayerRoles(layers[|layers| - 1]), n));
    }
  }

  lemma {:induction false} StackDescribed(said: seq<Option<Role>>)
    ensures Stack(said).Some? ==> Stack(said).value.description.Some?
    ensures Stack(said).None? ==> forall i :: 0 <= i < |said| ==> Setting(said, i, Description).None?
  {
    if said != [] {
      var m := |said| - 1;
      StackDescribed(said[..m]);
      assert forall i :: 0 <= i < m ==> Setting(said[..m], i, Description) == Setting(said, i, Description);
    }
  }

  lemma SetHighestNext(said: seq<Option<Role>>, top: Option<Role>, f: Field, first: nat, v: Option<int>)
    requires first < |said| && SetHighest(said, f, first, v)
    ensures SetHighest(said + [top], f, first, OrElse(if top.Some? then Get(top.value, f) else None, v))
  {
    var all := said + [top];
    assert forall i :: 0 <= i < |said| ==> Setting(all, i, f) == Setting(said, i, f);
    assert Setting(all, |said|, f) == if top.Some? then Get(top.value, f) else None;
    if Setting(all, |said|, f).None? && v.Some? {
      var i: nat :| first <= i < |said| && Setting(said, i, f) == v && forall j :: i < j < |said| ==> Setting(said, j, f).None?;
      assert Setting(all, i, f) == v;
    }
  }

  lemma {:induction false} StackClosedForm(said: seq<Option<Role>>, f: Field, first: nat)
    requires FirstDescribed(said, first)
    ensures Stack(said).Some? && SetHighest(said, f, first, Get(Stack(said).value, f))
  {
    var m := |said| - 1;
    var init, top := said[..m], said[m];
    assert forall i :: 0 <= i < m ==> Setting(init, i, Description) == Setting(said, i, Description);
    StackDescribed(said);
    if first < m {
      assert FirstDescribed(init, first);
      StackClosedForm(init, f, first);
      StackDescribed(init);
      SetHighestNext(init, top, f, first, Get(Stack(init).value, f));
      assert said == init + [top];
    } else {
      StackUndescribed(init);
      assert Setting(said, m, f) == Get(Stack(said).value, f);
    }
  }

  lemma {:induction false} StackUndescribed(said: seq<Option<Role>>)
    requires forall i :: 0 <= i < |said| ==> Setting(said, i, Description).None?
    ensures Stack(said).None?
  {
    if said != [] {
      var m := |said| - 1;
      assert forall i :: 0 <= i < m ==> Setting(said[..m], i, Description) == Setting(said, i, Description);
      StackUndescribed(said[..m]);
      assert Setting(said, m, Description).None?;
    }
  }

  /** Closed form of the merge. A role described by some layer exists and has a description, and
      each of its fields is what the highest layer that sets it says, counting only from the first
      layer that described the role. */
  lemma RolesClosedForm(layers: seq<Layer>, n: Name, f: Field, first: nat)
    requires FirstDescribed(Said(layers, n), first)
    ensures n in MergeAll(layers) && MergeAll(layers)[n].description.Some?
    ensures SetHighest(Said(layers, n), f, first, Get(MergeAll(layers)[n], f))
  {
    MergeAllIsStack(layers, n);
    StackDescribed(Said(layers, n));
    StackClosedForm(Said(layers, n), f, first);
  }

  lemma {:induction false} LowestDescribed(said: seq<Option<Role>>, i: nat) returns (first: nat)
    requires i < |said| && Setting(said, i, Description).Some?
    ensures FirstDescribed(said, first)
    decreases i
  {
    if j: nat :| j < i && Setting(said, j, Description).Some? {
      first := LowestDescribed(said, j);
    } else {
      first := i;
    }
  }

  /** A role exists exactly if some layer describes it: then one layer is the first to. */
  lemma ExistsIffDescribed(layers: seq<Layer>, n: Name)
    ensures n in MergeAll(layers) <==> exists first: nat :: FirstDescribed(Said(layers, n), first)
  {
    var said := Said(layers, n);
    MergeAllIsStack(layers, n);
    if n in MergeAll(layers) {
      if forall i :: 0 <= i < |said| ==> Setting(said, i, Description).None? {
        StackUndescribed(said);
      } else {
        var i: nat :| i < |said| && Setting(said, i, Description).Some?;
        var first := LowestDescribed(said, i);
      }
    }
    if first: nat :| FirstDescribed(said, first) {
      StackClosedForm(said, Description, first);
    }
  }

  /** Roles are never removed by a later layer, and never lose a field. */
  lemma RolesOnlyGrow(layers: seq<Layer>, layer: Layer, n: Name, f: Field)
    requires n in MergeAll(layers)
    ensures n in MergeAll(layers + [layer])
    ensures Get(MergeAll(layers)[n], f).Some? ==> Get(MergeAll(layers + [layer])[n], f).Some?
  {
    assert (layers + [layer])[..|layers|] == layers;
  }

  /** The highest layer that sets a field does not win as such: nicknames given by a layer below the
      first description are lost. */
  lemma EarlyFieldsAreLost(n: Name, nick: int, text: int)
    ensures
      var low := Layer(Table([Declaration(n, Some(Role(None, None, Some(nick))), None)]), None);
      var high := Layer(Table([Declaration(n, Some(Role(Some(text), None, None)), None)]), None);
      && Setting(Said([low, high], n), 0, Nicknames) == Some(nick)
      && n in MergeAll([low, high]) && MergeAll([low, high])[n].nicknames == None
  {
    var low := Layer(Table([Declaration(n, Some(Role(None, None, Some(nick))), None)]), None);
    var high := Layer(Table([Declaration(n, Some(Role(Some(text), None, None)), None)]), None);
    SingleDeclaration(n, Role(None, None, Some(nick)));
    SingleDeclaration(n, Role(Some(text), None, None));
    var said := Said([low, high], n);
    assert FirstDescribed(said, 1);
    RolesClosedForm([low, high], n, Nicknames, 1);
    assert Setting(said, 1, Nicknames).None?;
  }

  lemma SingleDeclaration(n: Name, role: Role)
    requires role.configFile.None?
    ensures LayerRoles(Layer(Table([Declaration(n, Some(role), None)]), None)) == map[n := role]
  {
    var ds := [Declaration(n, Some(role), None)];
    assert DeclaredEntries(ds)[..0] == [];
    assert DeclaredEntries(ds) == [Some((n, role))];
    assert FirstOfName(DeclaredEntries(ds)) == map[n := role];
    assert map[] + map[n := role] == map[n := role];
  }

  // ---- Without layers -------------------------------------------------------------

  datatype Loaded = Loaded(roles: Roles) | Rejected(problem: Warning)

  predicate Acceptable(d: Declaration) {
    DeclaredRole(d).Some? && DeclaredRole(d).value.1.description.Some?
  }

  /** Every declared role is well formed and described, and no two share a name. */
  predicate StrictlyLoadable(ds: seq<Declaration>) {
    && (forall i :: 0 <= i < |ds| ==> Acceptable(ds[i]))
    && (forall i, j :: 0 <= i < j < |ds| ==> DeclaredRole(ds[i]).value.0 != DeclaredRole(ds[j]).value.0)
  }

  /** Declaration `k` is the first that cannot be loaded, and why: it is malformed, undescribed, or its
      name is taken. */
  ghost predicate RejectedAt(ds: seq<Declaration>, k: nat, problem: Warning) {
    && k < |ds| && StrictlyLoadable(ds[..k])
    && if !WellFormed(ds[k]) then problem == MalformedRole(ds[k].name)
       else if DeclaredRole(ds[k]).value.1.description.None? then problem == MissingDescription(FinalName(ds[k]))
       else (exists j :: 0 <= j < k && Declares(ds[j], FinalName(ds[k]))) && problem == DuplicateInLayer(FinalName(ds[k]))
  }

  /** With no layer at all the plain configuration is read strictly: it loads exactly if every
      declared role is well formed and described and no two share a name, and then unchanged. */
  method LoadAgentRolesWithoutLayers(ds: seq<Declaration>) returns (result: Loaded)
    ensures result.Loaded? <==> StrictlyLoadable(ds)
    ensures result.Loaded? ==> result.roles == FirstOfName(DeclaredEntries(ds))
    ensures result.Rejected? ==> exists k: nat :: RejectedAt(ds, k, result.problem)
  {
    var roles: Roles := map[];
    var entries := DeclaredEntries(ds);
    for k := 0 to |ds|
      invariant forall i :: 0 <= i < k ==> Acceptable(ds[i])
      invariant forall i, j :: 0 <= i < j < k ==> DeclaredRole(ds[i]).value.0 != DeclaredRole(ds[j]).value.0
      invariant roles == FirstOfName(entries[..k])
    {
      assert entries[..k + 1][..k] == entries[..k];
      var entry := DeclaredRole(ds[k]);
      if entry.None? {
        assert !Acceptable(ds[k]) && RejectedAt(ds, k, MalformedRole(ds[k].name));
        return Rejected(MalformedRole(ds[k].name));
      }
      var (name, role) := entry.value;
      if role.description.None? {
        assert !Acceptable(ds[k]) && RejectedAt(ds, k, MissingDescription(name));
        return Rejected(MissingDescription(name));
      }
      NamesOfFirst(entries[..k], name);
      if name in roles {
        ghost var i :| 0 <= i < k && entries[..k][i].Some? && entries[..k][i].value.0 == name;
        assert DeclaredRole(ds[i]).value.0 == DeclaredRole(ds[k]).value.0;
        assert Declares(ds[i], FinalName(ds[k])) && RejectedAt(ds, k, DuplicateInLayer(name));
        return Rejected(DuplicateInLayer(name));
      }
      assert forall i :: 0 <= i < k ==> entries[..k][i] == DeclaredRole(ds[i]);
      roles := roles[name := role];
    }
    assert entries[..|ds|] == entries;
    result := Loaded(roles);
  }

  lemma MergeAllNext(layers: seq<Layer>, i: nat)
    requires i < |layers|
    ensures MergeAll(layers[..i + 1]) == MergeLayer(MergeAll(layers[..i]), LayerRoles(layers[i]))
  {
    assert layers[..i + 1][..i] == layers[..i];
  }

  /** The layer has the role and neither it nor what lies below describes it. */
  predicate LeftUndescribed(before: Roles, layer: Layer, n: Name) {
    n in LayerRoles(layer) && OnTop(before, n, LayerRoles(layer)[n]).description.None?
  }

  /** How often a layer on top of the roles so far gives a warning. */
  function GivenBy(before: Roles, layer: Layer, w: Warning): nat {
    WarningsOf(layer, w) + if w.MissingDescription? && LeftUndescribed(before, layer, w.name) then 1 else 0
  }

  /** How often the layers give a warning. */
  function TimesGiven(layers: seq<Layer>, w: Warning): nat {
    if layers == [] then 0 else
      var below := layers[..|layers| - 1];
      TimesGiven(below, w) + GivenBy(MergeAll(below), layers[|layers| - 1], w)
  }

  /** In how many layers a role is left undescribed. */
  function TimesUndescribed(layers: seq<Layer>, n: Name): nat {
    if layers == [] then 0 else
      var below := layers[..|layers| - 1];
      TimesUndescribed(below, n) + if LeftUndescribed(MergeAll(below), layers[|layers| - 1], n) then 1 else 0
  }

  lemma TimesGivenNext(layers: seq<Layer>, i: nat, w: Warning)
    requires i < |layers|
    ensures TimesGiven(layers[..i + 1], w) == TimesGiven(layers[..i], w) + GivenBy(MergeAll(layers[..i]), layers[i], w)
  {
    assert layers[..i + 1][..i] == layers[..i];
  }

  lemma TimesNext(layers: seq<Layer>, i: nat, n: Name)
    requires i < |layers|
    ensures TimesUndescribed(layers[..i + 1], n) ==
            TimesUndescribed(layers[..i], n) + if LeftUndescribed(MergeAll(layers[..i]), layers[i], n) then 1 else 0
  {
    assert layers[..i + 1][..i] == layers[..i];
  }

  lemma GivenTogether(before: Roles, layer: Layer, layerWarnings: multiset<Warning>, mergeWarnings: multiset<Warning>)
    requires (forall w :: layerWarnings[w] == WarningsOf(layer, w)) && NoneMissing(layerWarnings)
    requires forall w :: mergeWarnings[w] == if w.MissingDescription? && LeftUndescribed(before, layer, w.name) then 1 else 0
    ensures forall w :: (layerWarnings + mergeWarnings)[w] == GivenBy(before, layer, w)
    ensures forall n :: (layerWarnings + mergeWarnings)[MissingDescription(n)] == if LeftUndescribed(before, layer, n) then 1 else 0
  {
  }

  /** Read one layer and put it on top of the roles so far. */
  method ApplyLayer(before: Roles, layer: Layer) returns (after: Roles, warnings: multiset<Warning>)
    ensures after == MergeLayer(before, LayerRoles(layer))
    ensures forall w :: warnings[w] == GivenBy(before, layer, w)
    ensures forall n :: warnings[MissingDescription(n)] == if LeftUndescribed(before, layer, n) then 1 else 0
  {
    var layerRoles, layerWarnings := ReadLayer(layer);
    var mergeWarnings;
    after, mergeWarnings := MergeRoles(before, layerRoles);
    MergeUnique(before, layerRoles, after);
    warnings := layerWarnings + mergeWarnings;
    GivenTogether(before, layer, layerWarnings, mergeWarnings);
  }

  /** Load the roles: strictly from the plain configuration if there is no layer, else layer by
      layer, warning once for every layer that leaves a role undescribed. */
  method LoadAgentRoles(plain: seq<Declaration>, layers: seq<Layer>) returns (result: Loaded, warnings: multiset<Warning>)
    ensures layers != [] ==> result == Loaded(MergeAll(layers))
    ensures layers == [] ==> (result.Loaded? <==> StrictlyLoadable(plain))
    ensures layers == [] && result.Loaded? ==> result.roles == FirstOfName(DeclaredEntries(plain))
    ensures layers == [] && result.Rejected? ==> exists k: nat :: RejectedAt(plain, k, result.problem)
    ensures layers == [] ==> warnings == multiset{}
    ensures forall w :: warnings[w] == TimesGiven(layers, w)
    ensures forall n :: warnings[MissingDescription(n)] == TimesUndescribed(layers, n)
  {
    warnings := multiset{};
    if layers == [] {
      result := LoadAgentRolesWithoutLayers(plain);
      return;
    }
    var roles: Roles := map[];
    for i := 0 to |layers|
      invariant roles == MergeAll(layers[..i])
      invariant forall w :: warnings[w] == TimesGiven(layers[..i], w)
      invariant forall n :: warnings[MissingDescription(n)] == TimesUndescribed(layers[..i], n)
    {
      forall w ensures TimesGiven(layers[..i + 1], w) == TimesGiven(layers[..i], w) + GivenBy(roles, layers[i], w) {
        TimesGivenNext(layers, i, w);
      }
      MergeAllNext(layers, i);
      forall n ensures TimesUndescribed(layers[..i + 1], n) ==
                       TimesUndescribed(layers[..i], n) + if LeftUndescribed(roles, layers[i], n) then 1 else 0
      {
        TimesNext(layers, i, n);
      }
      var layerWarnings;
      roles, layerWarnings := ApplyLayer(roles, layers[i]);
      warnings := warnings + layerWarnings;
    }
    assert layers[..|layers|] == layers;
    result := Loaded(roles);
  }

  lemma {:induction false} NamesOfFirst(entries: seq<Option<(Name, Role)>>, n: Name)
    ensures n in FirstOfName(entries) <==> exists i :: 0 <= i < |entries| && entries[i].Some? && entries[i].value.0 == n
  {
    if entries != [] {
      var init := entries[..|entries| - 1];
      NamesOfFirst(init, n);
      assert forall i :: 0 <= i < |init| ==> init[i] == entries[i];
      if n in FirstOfName(init) {
        var i :| 0 <= i < |init| && init[i].Some? && init[i].value.0 == n;
        assert entries[i].value.0 == n;
      } else if n in FirstOfName(entries) {
        assert entries[|init|].value.0 == n;
      }
    }
  }

  // ---- What one layer says, told from its entries ---------------------------------

  /** `v` is what the role file says, or the entry where the file says nothing. */
  predicate FileFirst(d: Declaration, file: Option<int>, entry: Option<int>, v: Option<int>) {
    if d.entry.Some? && d.entry.value.configFile.Some? && file.Some? then v == file else v == entry
  }

  /** The fields of a declared role: the role file's word goes before the entry's. */
  predicate DeclaredAs(d: Declaration, role: Role)
    requires d.entry.Some? && (d.entry.value.configFile.Some? ==> d.file.Some?)
  {
    var entry, file := d.entry.value, if d.file.Some? then d.file.value else RoleFile(0, None, None);
    && role.configFile == entry.configFile
    && FileFirst(d, file.description, entry.description, role.description)
    && FileFirst(d, file.nicknames, entry.nicknames, role.nicknames)
  }

  /** Some well-formed declaration names the file as its role file. */
  ghost predicate Claimed(ds: seq<Declaration>, path: int) {
    exists i :: 0 <= i < |ds| && ds[i].entry.Some? && ds[i].file.Some? && ds[i].entry.value.configFile == Some(path)
  }

  /** Declaration `i` is the first under the name. */
  ghost predicate DeclaresFirst(ds: seq<Declaration>, i: nat, n: Name) {
    i < |ds| && Declares(ds[i], n) && forall j :: 0 <= j < i ==> !Declares(ds[j], n)
  }

  /** The file is readable, unclaimed and of the name. */
  ghost predicate Finds(ds: seq<Declaration>, f: FoundFile, n: Name) {
    f.parsed.Some? && f.parsed.value.name == n && !Claimed(ds, f.path)
  }

  ghost predicate FindsFirst(ds: seq<Declaration>, fs: seq<FoundFile>, i: nat, n: Name) {
    i < |fs| && Finds(ds, fs[i], n) && forall j :: 0 <= j < i ==> !Finds(ds, fs[j], n)
  }

  predicate FoundAs(f: FoundFile, role: Role)
    requires f.parsed.Some?
  {
    role.description == f.parsed.value.description && role.nicknames == f.parsed.value.nicknames && role.configFile == Some(f.path)
  }

  lemma {:induction false} FirstIs(entries: seq<Option<(Name, Role)>>, n: Name, i: nat)
    requires i < |entries| && entries[i].Some? && entries[i].value.0 == n
    requires forall j :: 0 <= j < i ==> entries[j].None? || entries[j].value.0 != n
    ensures Lookup(FirstOfName(entries), n) == Some(entries[i].value.1)
  {
    var init := entries[..|entries| - 1];
    if i < |init| {
      FirstIs(init, n, i);
    } else {
      NamesOfFirst(init, n);
    }
  }

  lemma {:induction false} ClaimedIff(ds: seq<Declaration>, path: int)
    ensures path in DeclaredFiles(ds) <==> Claimed(ds, path)
  {
    if ds != [] {
      ClaimedIff(ds[..|ds| - 1], path);
    }
  }

  /** A layer's role of a name is that of its first well-formed declaration under the name, else that
      of the first readable unclaimed file of the name, else there is none. */
  lemma LayerSays(layer: Layer, n: Name)
    ensures
      var ds, fs, said := Declarations(layer), if layer.found.Some? then layer.found.value else [], Lookup(LayerRoles(layer), n);
      && (forall i: nat :: DeclaresFirst(ds, i, n) ==> said.Some? && DeclaredAs(ds[i], said.value))
      && (forall i: nat :: FindsFirst(ds, fs, i, n) && (forall j :: 0 <= j < |ds| ==> !Declares(ds[j], n)) ==>
            said.Some? && FoundAs(fs[i], said.value))
      && (said.Some? ==> (exists j :: 0 <= j < |ds| && Declares(ds[j], n)) || exists j :: 0 <= j < |fs| && Finds(ds, fs[j], n))
  {
    var ds, fs := Declarations(layer), if layer.found.Some? then layer.found.value else [];
    var declared, found := DeclaredEntries(ds), FoundEntries(fs, DeclaredFiles(ds));
    NamesOfFirst(declared, n);
    NamesOfFirst(found, n);
    forall j | 0 <= j < |fs| ensures (found[j].Some? && found[j].value.0 == n) <==> Finds(ds, fs[j], n) {
      ClaimedIff(ds, fs[j].path);
    }
    forall i: nat | DeclaresFirst(ds, i, n) ensures Lookup(FirstOfName(declared), n) == Some(declared[i].value.1) {
      FirstIs(declared, n, i);
    }
    forall i: nat | FindsFirst(ds, fs, i, n) ensures Lookup(FirstOfName(found), n) == Some(found[i].value.1) {
      FirstIs(found, n, i);
    }
  }
}
