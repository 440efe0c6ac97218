/** Which dotted name each Python name stands for, as the import scanner computes it: imports bind names at once, and a
    bounded loop then follows assignments such as `load = importlib.import_module` until nothing changes. */
module ImportAliases {
  import opened Basics

  // ---- the syntax the scanner looks at ---

  datatype Node = Name(id: string) | Attribute(value: Node, attr: string) | Other

  datatype Alias = Alias(name: string, asname: Option<string>)

  /** The nodes of a module in the order of `ast.walk`. `module` is absent in `from . import name`. */
  datatype Statement =
    | Import(aliases: seq<Alias>)
    | ImportFrom(from: Option<string>, aliases: seq<Alias>)
    | Assign(targets: seq<Node>, value: Node)
    | AnnAssign(target: Node, annotated: Option<Node>)
    | Elsewhere

  type Bindings = map<string, string>

  function Front<T>(s: seq<T>): seq<T>
    requires s != []
  {
    s[..|s| - 1]
  }

  function Last<T>(s: seq<T>): T
    requires s != []
  {
    s[|s| - 1]
  }

  datatype Assignment = Assignment(name: string, value: Node)

  /** bindings.get(name, name) */
  function Get(bindings: Bindings, name: string): string {
    if name in bindings then bindings[name] else name
  }

  function DottedBinding(node: Node, bindings: Bindings): Option<string> {
    match node
    case Name(id) => Some(Get(bindings, id))
    case Attribute(value, attr) => (
      match DottedBinding(value, bindings)
      case Some(base) => if base != "" then Some(base + "." + attr) else None
      case None => None)
    case Other => None
  }

  function FirstPart(name: string): string {
    if name == "" || name[0] == '.' then "" else [name[0]] + FirstPart(name[1..])
  }

  /** Python's `or` on an optional name: an empty one counts as missing. */
  function OrElse(name: Option<string>, other: string): string {
    if name.Some? && name.value != "" then name.value else other
  }

  predicate Given(name: Option<string>) {
    name.Some? && name.value != ""
  }

  // ---- what the loops compute ---

  const START: Bindings := map["__import__" := "builtins.__import__", "importlib" := "importlib"]

  function BindImport(alias: Alias, bindings: Bindings): Bindings {
    bindings[OrElse(alias.asname, FirstPart(alias.name)) := if Given(alias.asname) then alias.name
        else FirstPart(alias.name)]
  }

  function BindImports(aliases: seq<Alias>, bindings: Bindings): Bindings {
    if aliases == [] then bindings else BindImport(Last(aliases), BindImports(Front(aliases), bindings))
  }

  function BindFrom(from: string, alias: Alias, bindings: Bindings): Bindings {
    bindings[OrElse(alias.asname, alias.name) := from + "." + alias.name]
  }

  function BindFroms(from: string, aliases: seq<Alias>, bindings: Bindings): Bindings {
    if aliases == [] then bindings else BindFrom(from, Last(aliases), BindFroms(from, Front(aliases), bindings))
  }

  function Imported(nodes: seq<Statement>): Bindings {
    if nodes == [] then START
    else
      var before := Imported(Front(nodes));
      match Last(nodes)
      case Import(aliases) => BindImports(aliases, before)
      case ImportFrom(from, aliases) => if Given(from) then BindFroms(from.value, aliases, before) else before
      case _ => before
  }

  function AssignmentsOf(node: Statement): seq<Assignment> {
    match node
    case Assign(targets, value) => if |targets| == 1 && targets[0].Name? then [Assignment(targets[0].id, value)] else []
    case AnnAssign(target, value) => if target.Name? && value.Some? then [Assignment(target.id, value.value)] else []
    case _ => []
  }

  function Assignments(nodes: seq<Statement>): seq<Assignment> {
    if nodes == [] then [] else Assignments(Front(nodes)) + AssignmentsOf(Last(nodes))
  }

  predicate Changes(a: Assignment, bindings: Bindings) {
    var resolved := DottedBinding(a.value, bindings);
    Given(resolved) && (a.name in bindings ==> bindings[a.name] != resolved.value)
  }

  function Update(a: Assignment, bindings: Bindings): Bindings {
    if Changes(a, bindings) then bindings[a.name := DottedBinding(a.value, bindings).value] else bindings
  }

  function Pass(assignments: seq<Assignment>, bindings: Bindings): Bindings {
    if assignments == [] then bindings else Update(Last(assignments), Pass(Front(assignments), bindings))
  }

  function Passes(assignments: seq<Assignment>, bindings: Bindings, count: nat): Bindings {
    if count == 0 then bindings else Pass(assignments, Passes(assignments, bindings, count - 1))
  }

  /** What the scanner ends with: as many passes as assignments, and one more. */
  function Resolved(nodes: seq<Statement>): Bindings {
    Passes(Assignments(nodes), Imported(nodes), |Assignments(nodes)| + 1)
  }

  lemma {:induction false} StableStays(assignments: seq<Assignment>, bindings: Bindings, count: nat, more: nat)
    requires count <= more && Passes(assignments, bindings, count) == Pass(assignments,
        Passes(assignments, bindings, count))
    ensures Passes(assignments, bindings, more) == Passes(assignments, bindings, count)
  {
    if count < more {
      StableStays(assignments, bindings, count, more - 1);
    }
  }

  /** The scanner's loops. Leaving after the first pass without a change loses nothing. */
  method CollectDynamicBindings(nodes: seq<Statement>) returns (bindings: Bindings)
    ensures bindings == Resolved(nodes)
  {
    bindings := START;
    var assignments: seq<Assignment> := [];
    for i := 0 to |nodes|
      invariant bindings == Imported(nodes[..i]) && assignments == Assignments(nodes[..i])
    {
      assert Front(nodes[..i + 1]) == nodes[..i];
      match nodes[i] {
        case Import(aliases) =>
          ghost var before := bindings;
          for j := 0 to |aliases|
            invariant bindings == BindImports(aliases[..j], before)
          {
            assert Front(aliases[..j + 1]) == aliases[..j];
            bindings := BindImport(aliases[j], bindings);
          }
          assert aliases[..|aliases|] == aliases;
        case ImportFrom(from, aliases) =>
          if Given(from) {
            ghost var before := bindings;
            for j := 0 to |aliases|
              invariant bindings == BindFroms(from.value, aliases[..j], before)
            {
              assert Front(aliases[..j + 1]) == aliases[..j];
              bindings := BindFrom(from.value, aliases[j], bindings);
            }
            assert aliases[..|aliases|] == aliases;
          }
        case Assign(targets, value) =>
          if |targets| == 1 && targets[0].Name? {
            assignments := assignments + [Assignment(targets[0].id, value)];
          }
        case AnnAssign(target, value) =>
          if target.Name? && value.Some? {
            assignments := assignments + [Assignment(target.id, value.value)];
          }
        case Elsewhere =>
      }
    }
    assert nodes[..|nodes|] == nodes;
    bindings := FollowAssignments(assignments, bindings);
  }

  method FollowAssignments(assignments: seq<Assignment>, imported: Bindings) returns (bindings: Bindings)
    ensures bindings == Passes(assignments, imported, |assignments| + 1)
  {
    bindings := imported;
    for pass := 0 to |assignments| + 1
      invariant bindings == Passes(assignments, imported, pass)
    {
      var changed := false;
      ghost var before := bindings;
      for j := 0 to |assignments|
        invariant bindings == Pass(assignments[..j], before)
        invariant !changed ==> bindings == before
      {
        assert Front(assignments[..j + 1]) == assignments[..j];
        var name, resolved := assignments[j].name, DottedBinding(assignments[j].value, bindings);
        if resolved.Some? && resolved.value != "" && !(name in bindings && bindings[name] == resolved.value) {
          bindings := bindings[name := resolved.value];
          changed := true;
        }
      }
      assert assignments[..|assignments|] == assignments;
      if !changed {
        StableStays(assignments, imported, pass, |assignments| + 1);
        break;
      }
    }
  }

  // ---- what the imports bind ---

  /** The part of a dotted name before its first dot. */
  lemma {:induction false} FirstPartIsHead(name: string)
    ensures var head := FirstPart(name);
            head <= name && '.' !in head && (|head| < |name| ==> name[|head|] == '.')
  {
    if name != "" && name[0] != '.' {
      FirstPartIsHead(name[1..]);
      var head := FirstPart(name);
      assert head[1..] == FirstPart(name[1..]);
      assert name == [name[0]] + name[1..];
    }
  }

  /** Each name an import statement binds, with what it then stands for: `import a.b` binds a, `import a.b as c` binds c
      to a.b, `from m import n` binds n to m.n, `from m import n as k` binds k to m.n. */
  function PairsOf(node: Statement): seq<(string, string)> {
    match node
    case Import(aliases) =>
      seq(|aliases|, j requires 0 <= j < |aliases| =>
        match aliases[j].asname
        case Some(k) => if k == "" then (FirstPart(aliases[j].name), FirstPart(aliases[j].name)) else (k, aliases[j].name)
        case None => (FirstPart(aliases[j].name), FirstPart(aliases[j].name)))
    case ImportFrom(Some(m), aliases) =>
      if m == "" then []
      else
        seq(|aliases|, j requires 0 <= j < |aliases| =>
          match aliases[j].asname
          case Some(k) => (if k == "" then aliases[j].name else k, m + "." + aliases[j].name)
          case None => (aliases[j].name, m + "." + aliases[j].name))
    case _ => []
  }

  function Pairs(nodes: seq<Statement>): seq<(string, string)> {
    if nodes == [] then [] else Pairs(Front(nodes)) + PairsOf(Last(nodes))
  }

  function Overridden(bindings: Bindings, pairs: seq<(string, string)>): Bindings {
    if pairs == [] then bindings else Overridden(bindings, Front(pairs))[Last(pairs).0 := Last(pairs).1]
  }

  lemma {:induction false} OverriddenAppend(bindings: Bindings, a: seq<(string, string)>, b: seq<(string, string)>)
    ensures Overridden(bindings, a + b) == Overridden(Overridden(bindings, a), b)
  {
    if b == [] {
      assert a + b == a;
    } else {
      OverriddenAppend(bindings, a, Front(b));
      assert Front(a + b) == a + Front(b);
    }
  }

  lemma {:induction false} ImportsOverride(aliases: seq<Alias>, bindings: Bindings)
    ensures BindImports(aliases, bindings) == Overridden(bindings, PairsOf(Import(aliases)))
  {
    hide FirstPart;
    if aliases != [] {
      ImportsOverride(Front(aliases), bindings);
      assert Front(PairsOf(Import(aliases))) == PairsOf(Import(Front(aliases)));
    }
  }

  lemma {:induction false} FromsOverride(m: string, aliases: seq<Alias>, bindings: Bindings)
    requires m != ""
    ensures BindFroms(m, aliases, bindings) == Overridden(bindings, PairsOf(ImportFrom(Some(m), aliases)))
  {
    if aliases != [] {
      FromsOverride(m, Front(aliases), bindings);
      assert Front(PairsOf(ImportFrom(Some(m), aliases))) == PairsOf(ImportFrom(Some(m), Front(aliases)));
    }
  }

  lemma {:induction false} ImportedOverrides(nodes: seq<Statement>)
    ensures Imported(nodes) == Overridden(START, Pairs(nodes))
  {
    hide PairsOf, Overridden, BindImports, BindFroms;
    if nodes == [] {
      NothingOverridden(START);
    } else {
      ImportedOverrides(Front(nodes));
      OverriddenAppend(START, Pairs(Front(nodes)), PairsOf(Last(nodes)));
      if Last(nodes).Import? {
        ImportsOverride(Last(nodes).aliases, Imported(Front(nodes)));
      } else if Last(nodes).ImportFrom? && Given(Last(nodes).from) {
        FromsOverride(Last(nodes).from.value, Last(nodes).aliases, Imported(Front(nodes)));
      } else {
        NoPairs(Last(nodes), Imported(Front(nodes)));
      }
    }
  }

  lemma NothingOverridden(bindings: Bindings)
    ensures Overridden(bindings, []) == bindings
  {
  }

  lemma NoPairs(node: Statement, bindings: Bindings)
    requires !node.Import? && !(node.ImportFrom? && Given(node.from))
    ensures Overridden(bindings, PairsOf(node)) == bindings
  {
  }

  lemma {:induction false} LastOverrides(bindings: Bindings, pairs: seq<(string, string)>, k: int, name: string)
    requires -1 <= k < |pairs| && (k >= 0 ==> pairs[k].0 == name)
    requires forall l :: k < l < |pairs| ==> pairs[l].0 != name
    ensures var after := Overridden(bindings, pairs);
            if k >= 0 then name in after && after[name] == pairs[k].1
            else (name in after <==> name in bindings) && (name in bindings ==> after[name] == bindings[name])
  {
    if k < |pairs| - 1 {
      LastOverrides(bindings, Front(pairs), k, name);
    }
  }

  /** After the imports a name stands for what the last import that binds it says; a name bound by none stands for
      what it did at the start, which is something only for the two built-in loaders. */
  lemma LastImportWins(nodes: seq<Statement>, k: int, name: string)
    requires -1 <= k < |Pairs(nodes)| && (k >= 0 ==> Pairs(nodes)[k].0 == name)
    requires forall l :: k < l < |Pairs(nodes)| ==> Pairs(nodes)[l].0 != name
    ensures k >= 0 ==> name in Imported(nodes) && Imported(nodes)[name] == Pairs(nodes)[k].1
    ensures k == -1 ==>
              Get(Imported(nodes), name) == if name == "__import__" then "builtins.__import__" else name
  {
    hide Imported, Pairs;
    ImportedOverrides(nodes);
    LastOverrides(START, Pairs(nodes), k, name);
  }

  // ---- what a name stands for ---

  function Root(node: Node): Option<string> {
    match node
    case Name(id) => Some(id)
    case Attribute(value, _) => Root(value)
    case Other => None
  }

  /** The attributes of `node` appended to what its root stands for. */
  function Extend(base: string, node: Node): string {
    if node.Attribute? then Extend(base, node.value) + "." + node.attr else base
  }

  /** The scanner can follow assignment `i`, and it assigns to the name. */
  predicate Defines(assignments: seq<Assignment>, i: int, name: string) {
    0 <= i < |assignments| && assignments[i].name == name && Root(assignments[i].value).Some?
  }

  ghost predicate Defined(assignments: seq<Assignment>, name: string) {
    exists i :: Defines(assignments, i, name)
  }

  ghost function Definition(assignments: seq<Assignment>, name: string): (i: nat)
    requires Defined(assignments, name)
    ensures Defines(assignments, i, name)
  {
    var i :| Defines(assignments, i, name);
    i
  }

  ghost function Source(assignments: seq<Assignment>, name: string): string
    requires Defined(assignments, name)
  {
    Root(assignments[Definition(assignments, name)].value).value
  }

  ghost predicate Once(assignments: seq<Assignment>) {
    forall i, j, name :: Defines(assignments, i, name) && Defines(assignments, j, name) ==> i == j
  }

  /** Following an alias always leads to a name of lower rank: the aliases have no cycle. */
  ghost predicate Ranked(assignments: seq<Assignment>, rank: string -> nat) {
    forall name :: Defined(assignments, name) && Defined(assignments, Source(assignments, name)) ==>
      rank(Source(assignments, name)) < rank(name)
  }

  /** The reference meaning of a name: follow its aliases to the end, then ask the imports. */
  ghost function Meaning(assignments: seq<Assignment>, imported: Bindings, rank: string -> nat, name: string): string
    requires Ranked(assignments, rank)
    decreases Defined(assignments, name), rank(name)
  {
    if Defined(assignments, name) then
      Extend(Meaning(assignments, imported, rank, Source(assignments, name)),
          assignments[Definition(assignments, name)].value)
    else Get(imported, name)
  }

  // ---- names are never empty ---

  predicate NodeNamed(node: Node) {
    Root(node) != Some("")
  }

  predicate AssignmentsNamed(assignments: seq<Assignment>) {
    forall i | 0 <= i < |assignments| :: assignments[i].name != "" && NodeNamed(assignments[i].value)
  }

  predicate AliasesNamed(aliases: seq<Alias>) {
    forall i | 0 <= i < |aliases| :: FirstPart(aliases[i].name) != ""
  }

  /** What the parser guarantees: no identifier is empty, and a dotted name begins with an identifier. */
  predicate Named(nodes: seq<Statement>) {
    forall i | 0 <= i < |nodes| ::
      match nodes[i]
      case Import(aliases) => AliasesNamed(aliases)
      case ImportFrom(_, aliases) => AliasesNamed(aliases)
      case _ => AssignmentsNamed(AssignmentsOf(nodes[i]))
  }

  predicate NonEmptyValues(bindings: Bindings) {
    forall name | name in bindings :: bindings[name] != ""
  }

  lemma {:induction false} BindImportsNonEmpty(aliases: seq<Alias>, bindings: Bindings)
    requires AliasesNamed(aliases) && NonEmptyValues(bindings)
    ensures NonEmptyValues(BindImports(aliases, bindings))
  {
    if aliases != [] {
      BindImportsNonEmpty(Front(aliases), bindings);
    }
  }

  lemma {:induction false} BindFromsNonEmpty(from: string, aliases: seq<Alias>, bindings: Bindings)
    requires NonEmptyValues(bindings)
    ensures NonEmptyValues(BindFroms(from, aliases, bindings))
  {
    if aliases != [] {
      BindFromsNonEmpty(from, Front(aliases), bindings);
    }
  }

  lemma {:induction false} ImportedNonEmpty(nodes: seq<Statement>)
    requires Named(nodes)
    ensures NonEmptyValues(Imported(nodes)) && AssignmentsNamed(Assignments(nodes))
  {
    if nodes != [] {
      ImportedNonEmpty(Front(nodes));
      var before := Imported(Front(nodes));
      match Last(nodes) {
        case Import(aliases) => BindImportsNonEmpty(aliases, before);
        case ImportFrom(from, aliases) => if Given(from) { BindFromsNonEmpty(from.value, aliases, before); }
        case _ =>
      }
    }
  }

  /** With non-empty names a followable node always resolves: its root's binding, extended. */
  lemma {:induction false} DottedExtends(node: Node, bindings: Bindings)
    requires NodeNamed(node) && NonEmptyValues(bindings)
    ensures Root(node).None? ==> DottedBinding(node, bindings) == None
    ensures Root(node).Some? ==> DottedBinding(node, bindings) == Some(Extend(Get(bindings, Root(node).value), node))
    ensures Root(node).Some? ==> Extend(Get(bindings, Root(node).value), node) != ""
  {
    if node.Attribute? {
      DottedExtends(node.value, bindings);
    }
  }

  // ---- names that have settled for good ---

  /** Every binding is non-empty, and names no assignment defines still mean what the imports say. */
  ghost predicate Clean(assignments: seq<Assignment>, imported: Bindings, bindings: Bindings) {
    && NonEmptyValues(bindings) && AssignmentsNamed(assignments)
    && forall name :: !Defined(assignments, name) ==> Get(bindings, name) == Get(imported, name)
  }

  /** The name and everything it is an alias of are bound to what they stand for. */
  ghost predicate Firm(assignments: seq<Assignment>, imported: Bindings, rank: string -> nat, bindings: Bindings,
      name: string)
    requires Ranked(assignments, rank)
    decreases Defined(assignments, name), rank(name)
  {
    && Get(bindings, name) == Meaning(assignments, imported, rank, name)
    && (Defined(assignments, name) ==>
          name in bindings && Firm(assignments, imported, rank, bindings, Source(assignments, name)))
  }

  lemma {:induction false} UpdateClean(assignments: seq<Assignment>, imported: Bindings, bindings: Bindings, j: nat)
    requires Clean(assignments, imported, bindings) && j < |assignments|
    ensures Clean(assignments, imported, Update(assignments[j], bindings))
  {
    DottedExtends(assignments[j].value, bindings);
    if Root(assignments[j].value).Some? {
      assert Defines(assignments, j, assignments[j].name);
    }
  }

  /** One assignment either leaves a name alone or binds it to the extension of its source. */
  lemma {:induction false} UpdateBinds(assignments: seq<Assignment>, imported: Bindings, bindings: Bindings, j: nat,
      name: string)
    requires Clean(assignments, imported, bindings) && Once(assignments) && j < |assignments|
    ensures var after := Update(assignments[j], bindings);
            if Defines(assignments, j, name)
            then Definition(assignments, name) == j && name in after &&
                after[name] == Extend(Get(bindings, Source(assignments, name)), assignments[j].value)
            else Get(after, name) == Get(bindings, name) && (name in after <==> name in bindings)
  {
    hide Extend, DottedBinding;
    DottedExtends(assignments[j].value, bindings);
  }

  lemma {:induction false} UpdateKeepsFirm(assignments: seq<Assignment>, imported: Bindings, rank: string -> nat,
      bindings: Bindings, j: nat, name: string)
    requires Ranked(assignments, rank) && Once(assignments) && Clean(assignments, imported, bindings) &&
        j < |assignments|
    requires Firm(assignments, imported, rank, bindings, name)
    ensures Firm(assignments, imported, rank, Update(assignments[j], bindings), name)
    decreases Defined(assignments, name), rank(name)
  {
    hide Update, Extend, Clean, Once;
    UpdateBinds(assignments, imported, bindings, j, name);
    if Defined(assignments, name) {
      UpdateKeepsFirm(assignments, imported, rank, bindings, j, Source(assignments, name));
    }
  }

  lemma {:induction false} UpdateMakesFirm(assignments: seq<Assignment>, imported: Bindings, rank: string -> nat,
      bindings: Bindings, j: nat)
    requires Ranked(assignments, rank) && Once(assignments) && Clean(assignments, imported, bindings)
    requires j < |assignments| && Defines(assignments, j, assignments[j].name)
    requires Firm(assignments, imported, rank, bindings, Root(assignments[j].value).value)
    ensures Firm(assignments, imported, rank, Update(assignments[j], bindings), assignments[j].name)
  {
    hide Update, Extend, Clean, Once;
    var name := assignments[j].name;
    assert Defined(assignments, name);
    UpdateBinds(assignments, imported, bindings, j, name);
    UpdateKeepsFirm(assignments, imported, rank, bindings, j, Source(assignments, name));
  }

  // ---- one pass ---

  lemma {:induction false} PassClean(assignments: seq<Assignment>, imported: Bindings, bindings: Bindings, k: nat)
    requires Clean(assignments, imported, bindings) && k <= |assignments|
    ensures Clean(assignments, imported, Pass(assignments[..k], bindings))
  {
    hide Update, Clean;
    if k > 0 {
      assert Front(assignments[..k]) == assignments[..k - 1];
      PassClean(assignments, imported, bindings, k - 1);
      UpdateClean(assignments, imported, Pass(assignments[..k - 1], bindings), k - 1);
    }
  }

  /** A pass loses no settled name, and settles every alias of a settled one. */
  lemma {:induction false} PassFirm(assignments: seq<Assignment>, imported: Bindings, rank: string -> nat,
      bindings: Bindings, k: nat, name: string)
    requires Ranked(assignments, rank) && Once(assignments) && Clean(assignments, imported, bindings) &&
        k <= |assignments|
    requires Firm(assignments, imported, rank, bindings, name) ||
             (Defined(assignments, name) && Definition(assignments, name) < k &&
                 Firm(assignments, imported, rank, bindings, Source(assignments, name)))
    ensures Firm(assignments, imported, rank, Pass(assignments[..k], bindings), name)
  {
    hide Update, Clean, Firm, Once, Ranked;
    if k > 0 {
      assert Front(assignments[..k]) == assignments[..k - 1];
      var before := Pass(assignments[..k - 1], bindings);
      PassClean(assignments, imported, bindings, k - 1);
      if !Firm(assignments, imported, rank, bindings, name) && Definition(assignments, name) == k - 1 {
        PassFirm(assignments, imported, rank, bindings, k - 1, Source(assignments, name));
        UpdateMakesFirm(assignments, imported, rank, before, k - 1);
      } else {
        PassFirm(assignments, imported, rank, bindings, k - 1, name);
        UpdateKeepsFirm(assignments, imported, rank, before, k - 1, name);
      }
    }
  }

  // ---- counting the assignments that have settled ---

  ghost predicate FirmAt(assignments: seq<Assignment>, imported: Bindings, rank: string -> nat, bindings: Bindings,
      i: int)
    requires Ranked(assignments, rank) && 0 <= i < |assignments|
  {
    Defines(assignments, i, assignments[i].name) ==> Firm(assignments, imported, rank, bindings, assignments[i].name)
  }

  ghost function Settled(assignments: seq<Assignment>, imported: Bindings, rank: string -> nat,
      bindings: Bindings): set<int>
    requires Ranked(assignments, rank)
  {
    set i | 0 <= i < |assignments| && FirmAt(assignments, imported, rank, bindings, i)
  }

  ghost function Indices(count: nat): (r: set<int>)
    ensures |r| == count && forall i :: i in r <==> 0 <= i < count
  {
    if count == 0 then {} else Indices(count - 1) + {count - 1}
  }

  /** Below every unsettled assignment is one whose source has settled. */
  lemma {:induction false} NextToSettle(assignments: seq<Assignment>, imported: Bindings, rank: string -> nat,
      bindings: Bindings, name: string) returns (next: string)
    requires Ranked(assignments, rank) && Once(assignments) && Clean(assignments, imported, bindings)
    requires Defined(assignments, name) && !Firm(assignments, imported, rank, bindings, name)
    ensures Defined(assignments, next) && !Firm(assignments, imported, rank, bindings, next)
    ensures Firm(assignments, imported, rank, bindings, Source(assignments, next))
    decreases rank(name)
  {
    if Firm(assignments, imported, rank, bindings, Source(assignments, name)) {
      next := name;
    } else {
      next := NextToSettle(assignments, imported, rank, bindings, Source(assignments, name));
    }
  }

  lemma {:induction false} PassSettles(assignments: seq<Assignment>, imported: Bindings, rank: string -> nat,
      bindings: Bindings)
    requires Ranked(assignments, rank) && Once(assignments) && Clean(assignments, imported, bindings)
    ensures Settled(assignments, imported, rank, bindings) <= Settled(assignments, imported, rank,
        Pass(assignments, bindings))
    ensures Settled(assignments, imported, rank, bindings) == Indices(|assignments|) ||
            |Settled(assignments, imported, rank, bindings)| < |Settled(assignments, imported, rank,
                Pass(assignments, bindings))|
  {
    hide Ranked, Once, Clean, Firm, Pass, Indices;
    assert assignments[..|assignments|] == assignments;
    var before, after := Settled(assignments, imported, rank, bindings),
        Settled(assignments, imported, rank, Pass(assignments, bindings));
    forall i | i in before ensures i in after {
      if Defines(assignments, i, assignments[i].name) {
        PassFirm(assignments, imported, rank, bindings, |assignments|, assignments[i].name);
      }
    }
    if before != Indices(|assignments|) {
      SettledBounded(assignments, imported, rank, bindings);
      var i := Missing(before, Indices(|assignments|));
      assert Defines(assignments, i, assignments[i].name);
      var next := NextToSettle(assignments, imported, rank, bindings, assignments[i].name);
      PassFirm(assignments, imported, rank, bindings, |assignments|, next);
      var j := Definition(assignments, next);
      assert j in after && j !in before;
      Grows(before, after, j);
    }
  }

  lemma Missing<T>(small: set<T>, large: set<T>) returns (x: T)
    requires small <= large && small != large
    ensures x in large && x !in small
  {
    x :| x in large && x !in small;
  }

  lemma Grows<T>(small: set<T>, large: set<T>, x: T)
    requires small <= large && x in large && x !in small
    ensures |small| < |large|
  {
    assert small + {x} <= large;
    Fits(small + {x}, large);
  }

  lemma {:induction false} Fits<T>(small: set<T>, large: set<T>)
    requires small <= large
    ensures |small| <= |large|
    ensures |small| == |large| ==> small == large
    decreases small
  {
    if small != {} {
      var x :| x in small;
      Fits(small - {x}, large - {x});
    }
  }

  /** After `count` passes at least `count` assignments have settled, or all of them. */
  lemma {:induction false} PassesSettle(assignments: seq<Assignment>, imported: Bindings, rank: string -> nat,
      count: nat)
    requires Ranked(assignments, rank) && Once(assignments) && Clean(assignments, imported, imported)
    ensures Clean(assignments, imported, Passes(assignments, imported, count))
    ensures var settled := Settled(assignments, imported, rank, Passes(assignments, imported, count));
            settled == Indices(|assignments|) || |settled| >= count
  {
    hide Ranked, Once, Clean, Settled, Pass, Indices;
    if count > 0 {
      var before := Passes(assignments, imported, count - 1);
      PassesSettle(assignments, imported, rank, count - 1);
      PassSettles(assignments, imported, rank, before);
      assert assignments[..|assignments|] == assignments;
      PassClean(assignments, imported, before, |assignments|);
      SettledBounded(assignments, imported, rank, Pass(assignments, before));
      Fits(Settled(assignments, imported, rank, before),
          Settled(assignments, imported, rank, Pass(assignments, before)));
    }
  }

  lemma SettledBounded(assignments: seq<Assignment>, imported: Bindings, rank: string -> nat, bindings: Bindings)
    requires Ranked(assignments, rank)
    ensures |Settled(assignments, imported, rank, bindings)| <= |assignments|
    ensures |Settled(assignments, imported, rank, bindings)| == |assignments| ==>
        Settled(assignments, imported, rank, bindings) == Indices(|assignments|)
    ensures Settled(assignments, imported, rank, bindings) <= Indices(|assignments|)
  {
    hide Ranked, FirmAt;
    Fits(Settled(assignments, imported, rank, bindings), Indices(|assignments|));
  }

  // ---- the loop ends with every alias followed ---

  /** No assignment has anything left to do. */
  predicate Quiet(assignments: seq<Assignment>, bindings: Bindings) {
    forall i | 0 <= i < |assignments| :: !Changes(assignments[i], bindings)
  }

  lemma {:induction false} QuietPass(assignments: seq<Assignment>, bindings: Bindings)
    requires Quiet(assignments, bindings)
    ensures Pass(assignments, bindings) == bindings
  {
    if assignments != [] {
      QuietPass(Front(assignments), bindings);
    }
  }

  lemma {:induction false} SettledIsQuiet(assignments: seq<Assignment>, imported: Bindings, rank: string -> nat,
      bindings: Bindings)
    requires Ranked(assignments, rank) && Once(assignments) && Clean(assignments, imported, bindings)
    requires Settled(assignments, imported, rank, bindings) == Indices(|assignments|)
    ensures Quiet(assignments, bindings)
    ensures forall name :: Get(bindings, name) == Meaning(assignments, imported, rank, name)
  {
    hide Ranked, Once, Clean, Changes, Firm, Meaning;
    forall i | 0 <= i < |assignments| ensures FirmAt(assignments, imported, rank, bindings, i) &&
        !Changes(assignments[i], bindings) {
      assert i in Indices(|assignments|);
      FirmIsQuiet(assignments, imported, rank, bindings, i);
    }
    forall name ensures Get(bindings, name) == Meaning(assignments, imported, rank, name) {
      FirmIsMeaning(assignments, imported, rank, bindings, name);
    }
  }

  lemma {:induction false} FirmIsQuiet(assignments: seq<Assignment>, imported: Bindings, rank: string -> nat,
      bindings: Bindings, i: nat)
    requires Ranked(assignments, rank) && Once(assignments) && Clean(assignments, imported, bindings)
    requires i < |assignments| && FirmAt(assignments, imported, rank, bindings, i)
    ensures !Changes(assignments[i], bindings)
  {
    hide Ranked, Extend, DottedBinding;
    DottedExtends(assignments[i].value, bindings);
    if Defines(assignments, i, assignments[i].name) {
      var name := assignments[i].name;
      assert Definition(assignments, name) == i;
      assert Firm(assignments, imported, rank, bindings, name) &&
          Firm(assignments, imported, rank, bindings, Source(assignments, name));
      assert Get(bindings, Source(assignments, name)) == Meaning(assignments, imported, rank,
          Source(assignments, name));
    }
  }

  lemma {:induction false} FirmIsMeaning(assignments: seq<Assignment>, imported: Bindings, rank: string -> nat,
      bindings: Bindings, name: string)
    requires Ranked(assignments, rank) && Clean(assignments, imported, bindings)
    requires forall i | 0 <= i < |assignments| :: FirmAt(assignments, imported, rank, bindings, i)
    ensures Get(bindings, name) == Meaning(assignments, imported, rank, name)
  {
    hide Ranked, Extend;
    if Defined(assignments, name) {
      assert FirmAt(assignments, imported, rank, bindings, Definition(assignments, name));
    }
  }

  /** If no name has two followable assignments and aliases have no cycle, the loop ends within its bound with nothing
      left to change, in whatever order the assignments stand, and every name is bound to what it stands for. */
  lemma {:induction false} AliasesResolve(nodes: seq<Statement>, rank: string -> nat)
    requires Named(nodes) && Once(Assignments(nodes)) && Ranked(Assignments(nodes), rank)
    ensures Quiet(Assignments(nodes), Resolved(nodes))
    ensures forall name :: Get(Resolved(nodes), name) == Meaning(Assignments(nodes), Imported(nodes), rank, name)
  {
    hide Ranked, Once, Settled, Quiet, Meaning;
    var assignments, imported := Assignments(nodes), Imported(nodes);
    ImportedNonEmpty(nodes);
    var bindings := Passes(assignments, imported, |assignments|);
    PassesSettle(assignments, imported, rank, |assignments|);
    SettledBounded(assignments, imported, rank, bindings);
    SettledIsQuiet(assignments, imported, rank, bindings);
    QuietPass(assignments, bindings);
  }

  // ---- order ---

  ghost predicate SameAssignments(a: seq<Assignment>, b: seq<Assignment>) {
    forall x :: x in a <==> x in b
  }

  lemma {:induction false} SameDefinition(a: seq<Assignment>, b: seq<Assignment>, name: string)
    requires SameAssignments(a, b) && Once(a) && Once(b)
    ensures Defined(a, name) <==> Defined(b, name)
    ensures Defined(a, name) ==> a[Definition(a, name)] == b[Definition(b, name)]
  {
    if Defined(a, name) {
      var x := a[Definition(a, name)];
      assert x in b;
      var j :| 0 <= j < |b| && b[j] == x;
      assert Defines(b, j, name) && Definition(b, name) == j;
    }
    if Defined(b, name) {
      var y := b[Definition(b, name)];
      assert y in a;
      var i :| 0 <= i < |a| && a[i] == y;
      assert Defines(a, i, name);
    }
  }

  lemma {:induction false} SameMeaning(a: seq<Assignment>, b: seq<Assignment>, imported: Bindings, rank: string -> nat,
      name: string)
    requires SameAssignments(a, b) && Once(a) && Once(b) && Ranked(a, rank) && Ranked(b, rank)
    ensures Meaning(a, imported, rank, name) == Meaning(b, imported, rank, name)
    decreases Defined(a, name), rank(name)
  {
    hide Once, Defined, Definition, SameAssignments, Extend, Get;
    SameDefinition(a, b, name);
    if Defined(a, name) {
      SameDefinition(a, b, Source(a, name));
      SameMeaning(a, b, imported, rank, Source(a, name));
    }
  }

  lemma {:induction false} SameRank(a: seq<Assignment>, b: seq<Assignment>, rank: string -> nat)
    requires SameAssignments(a, b) && Once(a) && Once(b) && Ranked(a, rank)
    ensures Ranked(b, rank)
  {
    hide Once, Defined, Definition, SameAssignments;
    forall name | Defined(b, name) && Defined(b, Source(b, name)) ensures rank(Source(b, name)) < rank(name) {
      SameDefinition(a, b, name);
      SameDefinition(a, b, Source(b, name));
      assert Source(a, name) == Source(b, name) && Defined(a, Source(a, name));
    }
  }

  /** Two modules with the same imports and the same assignments, in any order, end with the same meanings. */
  lemma {:induction false} OrderDoesNotMatter(left: seq<Statement>, right: seq<Statement>, rank: string -> nat)
    requires Named(left) && Named(right) && Imported(left) == Imported(right)
    requires SameAssignments(Assignments(left), Assignments(right))
    requires Once(Assignments(left)) && Once(Assignments(right)) && Ranked(Assignments(left), rank)
    ensures forall name :: Get(Resolved(left), name) == Get(Resolved(right), name)
  {
    hide Once, Ranked, SameAssignments, Meaning, Resolved, Named;
    SameRank(Assignments(left), Assignments(right), rank);
    AliasesResolve(left, rank);
    AliasesResolve(right, rank);
    forall name ensures Get(Resolved(left), name) == Get(Resolved(right), name) {
      SameMeaning(Assignments(left), Assignments(right), Imported(left), rank, name);
    }
  }

  // ---- what the conditions are for ---

  /** Aliases of other names along a chain of assignments: each assigns from the name the next one assigns to. */
  ghost predicate Chain(assignments: seq<Assignment>, chain: seq<int>) {
    && (forall k :: 0 <= k < |chain| ==> 0 <= chain[k] < |assignments| && Root(assignments[chain[k]].value).Some?)
    && forall k :: 0 < k < |chain| ==> Root(assignments[chain[k - 1]].value) == Some(assignments[chain[k]].name)
  }

  lemma {:induction false} ExtendLonger(base: string, node: Node)
    ensures |base| <= |Extend(base, node)|
    ensures node.Attribute? ==> |base| < |Extend(base, node)|
  {
    if node.Attribute? {
      ExtendLonger(base, node.value);
    }
  }

  lemma {:induction false} QuietLink(assignments: seq<Assignment>, bindings: Bindings, i: nat)
    requires Quiet(assignments, bindings) && NonEmptyValues(bindings) && AssignmentsNamed(assignments)
    requires i < |assignments| && Root(assignments[i].value).Some?
    ensures var source := Get(bindings, Root(assignments[i].value).value);
            |source| <= |Get(bindings, assignments[i].name)| &&
            (assignments[i].value.Attribute? ==> |source| < |Get(bindings, assignments[i].name)|)
  {
    assert !Changes(assignments[i], bindings);
    DottedExtends(assignments[i].value, bindings);
    ExtendLonger(Get(bindings, Root(assignments[i].value).value), assignments[i].value);
  }

  lemma {:induction false} QuietChain(assignments: seq<Assignment>, bindings: Bindings, chain: seq<int>)
    requires Quiet(assignments, bindings) && NonEmptyValues(bindings) && AssignmentsNamed(assignments)
    requires chain != [] && Chain(assignments, chain)
    ensures var source := Get(bindings, Root(assignments[Last(chain)].value).value);
            |source| <= |Get(bindings, assignments[chain[0]].name)| &&
            ((exists k | 0 <= k < |chain| :: assignments[chain[k]].value.Attribute?) ==>
                |source| < |Get(bindings, assignments[chain[0]].name)|)
  {
    hide Quiet, AssignmentsNamed, NonEmptyValues, Get;
    QuietLink(assignments, bindings, Last(chain));
    if |chain| > 1 {
      QuietChain(assignments, bindings, Front(chain));
    }
  }

  /** Aliases that lead back to where they started, with an attribute on the way, never come to rest. */
  lemma {:induction false} CycleNeverSettles(assignments: seq<Assignment>, bindings: Bindings, cycle: seq<int>)
    requires NonEmptyValues(bindings) && AssignmentsNamed(assignments)
    requires cycle != [] && Chain(assignments, cycle) &&
        Root(assignments[Last(cycle)].value) == Some(assignments[cycle[0]].name)
    requires exists k | 0 <= k < |cycle| :: assignments[cycle[k]].value.Attribute?
    ensures !Quiet(assignments, bindings)
  {
    if Quiet(assignments, bindings) {
      QuietChain(assignments, bindings, cycle);
    }
  }

  /** Bindings are at rest exactly when every followable assignment holds as an equation. */
  lemma {:induction false} QuietExactly(assignments: seq<Assignment>, bindings: Bindings)
    requires NonEmptyValues(bindings) && AssignmentsNamed(assignments)
    ensures Quiet(assignments, bindings) <==>
              forall i :: 0 <= i < |assignments| && Root(assignments[i].value).Some? ==>
                assignments[i].name in bindings &&
                bindings[assignments[i].name] == Extend(Get(bindings, Root(assignments[i].value).value),
                    assignments[i].value)
  {
    hide Extend, DottedBinding;
    forall i | 0 <= i < |assignments|
      ensures Changes(assignments[i], bindings) <==>
                Root(assignments[i].value).Some? && !(assignments[i].name in bindings &&
                  bindings[assignments[i].name] == Extend(Get(bindings, Root(assignments[i].value).value),
                      assignments[i].value))
    {
      DottedExtends(assignments[i].value, bindings);
    }
  }

  /** A name with two followable assignments is at rest only if both stand for the same thing; if they differ, no
      bindings at all are at rest, and every pass changes something. */
  lemma TwiceAtRest(assignments: seq<Assignment>, bindings: Bindings, i: nat, j: nat)
    requires NonEmptyValues(bindings) && AssignmentsNamed(assignments) && i < |assignments| && j < |assignments|
    requires Defines(assignments, i, assignments[i].name) && Defines(assignments, j, assignments[i].name)
    ensures Quiet(assignments, bindings) ==>
              Extend(Get(bindings, Root(assignments[i].value).value), assignments[i].value) ==
              Extend(Get(bindings, Root(assignments[j].value).value), assignments[j].value)
  {
    hide Quiet, Extend, Get;
    QuietExactly(assignments, bindings);
  }

  /** Around a cycle of plain names, bindings at rest give every name the same meaning. */
  lemma {:induction false} PureCycleAtRest(assignments: seq<Assignment>, bindings: Bindings, chain: seq<int>, k: nat)
    requires Quiet(assignments, bindings) && NonEmptyValues(bindings) && AssignmentsNamed(assignments)
    requires Chain(assignments, chain) && k < |chain|
    requires forall m | 0 <= m < |chain| :: assignments[chain[m]].value.Name?
    ensures Get(bindings, assignments[chain[k]].name) == Get(bindings, assignments[chain[0]].name)
  {
    hide Quiet;
    QuietExactly(assignments, bindings);
    if k > 0 {
      PureCycleAtRest(assignments, bindings, chain, k - 1);
      assert Root(assignments[chain[k - 1]].value) == Some(assignments[chain[k]].name);
    }
  }

  /** names[0] = names[1]; names[1] = names[2]; ...; the last one = names[0]. */
  function ForwardCycle(names: seq<string>): (r: seq<Assignment>)
    requires |names| >= 2
    ensures |r| == |names|
  {
    seq(|names|, i requires 0 <= i < |names| => Assignment(names[i], Name(names[if i + 1 < |names| then i + 1 else 0])))
  }

  /** What the i-th name of the cycle is bound to after so many passes. */
  function Turn(names: seq<string>, passes: nat, i: nat): string
    requires |names| >= 2 && i < |names|
  {
    if passes == 0 then names[i] else names[1 + (i + passes - 1) % (|names| - 1)]
  }

  ghost predicate Turning(names: seq<string>, bindings: Bindings, passes: nat, k: nat)
    requires |names| >= 2 && k <= |names|
  {
    forall i :: 0 <= i < |names| ==>
      Get(bindings, names[i]) == Turn(names, if i < k then passes + 1 else passes, i) &&
      (i < k || passes > 0 ==> names[i] in bindings)
  }

  ghost predicate DistinctNames(names: seq<string>) {
    (forall i, j :: 0 <= i < j < |names| ==> names[i] != names[j]) && "" !in names
  }

  lemma TurnStep(names: seq<string>, passes: nat, k: nat)
    requires |names| >= 2 && k < |names|
    ensures k + 1 < |names| ==> Turn(names, passes + 1, k) == Turn(names, passes, k + 1)
    ensures k + 1 == |names| ==> Turn(names, passes + 1, k) == Turn(names, passes + 1, 0)
  {
    if k + 1 == |names| {
      assert (k + passes) % (|names| - 1) == passes % (|names| - 1) by { WrapsAround(passes, |names| - 1); }
    } else if passes == 0 {
      assert k % (|names| - 1) == k;
    }
  }

  lemma WrapsAround(a: nat, m: nat)
    requires m > 0
    ensures (m + a) % m == a % m
  {
    assert m + a == a + 1 * m;
    var q := a / m;
    assert a == q * m + a % m;
    assert m + a == (q + 1) * m + a % m;
    QuotientUnique(m + a, q + 1, a % m, m);
  }

  lemma QuotientUnique(x: int, q: int, r: int, m: int)
    requires m > 0 && 0 <= r < m && x == q * m + r
    ensures x % m == r
  {
    var d := x / m - q;
    assert x == (x / m) * m + x % m;
    assert d * m == r - x % m;
    Multiples(d, m);
  }

  lemma Multiples(d: int, m: int)
    requires m > 0
    ensures d >= 1 ==> d * m >= m
    ensures d <= -1 ==> d * m <= -m
  {
  }

  lemma {:induction false} TurnsPartly(names: seq<string>, bindings: Bindings, passes: nat, k: nat)
    requires |names| >= 2 && DistinctNames(names) && Turning(names, bindings, passes, 0) && k <= |names|
    ensures Turning(names, Pass(ForwardCycle(names)[..k], bindings), passes, k)
  {
    hide Turning, DistinctNames, Update, ForwardCycle;
    if k > 0 {
      var cycle := ForwardCycle(names);
      assert Front(cycle[..k]) == cycle[..k - 1];
      TurnsPartly(names, bindings, passes, k - 1);
      TurnsOne(names, Pass(cycle[..k - 1], bindings), passes, k - 1);
    } else {
      assert ForwardCycle(names)[..0] == [];
    }
  }

  lemma TurnsOne(names: seq<string>, bindings: Bindings, passes: nat, k: nat)
    requires |names| >= 2 && DistinctNames(names) && k < |names| && Turning(names, bindings, passes, k)
    ensures Turning(names, Update(ForwardCycle(names)[k], bindings), passes, k + 1)
  {
    hide Turn, Update, Get, DistinctNames;
    var source := if k + 1 < |names| then k + 1 else 0;
    var after := Update(ForwardCycle(names)[k], bindings);
    TurnStep(names, passes, k);
    TurnNonEmpty(names, passes + 1, k);
    NoEmptyName(names, Turn(names, passes + 1, k));
    assert ForwardCycle(names)[k] == Assignment(names[k], Name(names[source]));
    assert Get(bindings, names[source]) == Turn(names, passes + 1, k);
    UpdateTurns(ForwardCycle(names)[k], bindings);
    BoundName(after, names[k]);
    forall i | 0 <= i < |names| && i != k
      ensures Get(after, names[i]) == Get(bindings, names[i]) && (names[i] in after <==> names[i] in bindings)
    {
      DistinctAt(names, i, k);
    }
  }

  lemma BoundName(bindings: Bindings, name: string)
    ensures name in bindings ==> Get(bindings, name) == bindings[name]
  {
  }

  lemma NoEmptyName(names: seq<string>, name: string)
    requires |names| >= 2 && DistinctNames(names) && name in names
    ensures name != ""
  {
  }

  lemma DistinctAt(names: seq<string>, i: nat, j: nat)
    requires |names| >= 2 && DistinctNames(names) && i < |names| && j < |names| && i != j
    ensures names[i] != names[j]
  {
  }

  lemma TurnNonEmpty(names: seq<string>, passes: nat, i: nat)
    requires |names| >= 2 && DistinctNames(names) && i < |names|
    ensures Turn(names, passes, i) in names
  {
  }

  lemma UpdateTurns(a: Assignment, bindings: Bindings)
    requires a.value.Name? && Get(bindings, a.value.id) != ""
    ensures var after := Update(a, bindings);
            a.name in after && after[a.name] == Get(bindings, a.value.id) &&
            forall name :: name != a.name ==> Get(after, name) == Get(bindings, name) && (name in after <==> name in bindings)
  {
  }

  lemma {:induction false} CycleTurns(names: seq<string>, imported: Bindings, passes: nat)
    requires |names| >= 2 && DistinctNames(names) && (forall i :: 0 <= i < |names| ==> names[i] !in imported)
    ensures Turning(names, Passes(ForwardCycle(names), imported, passes), passes, 0)
  {
    hide DistinctNames, Pass, ForwardCycle, Turning, Turn;
    if passes == 0 {
      Unturned(names, imported);
    } else {
      CycleTurns(names, imported, passes - 1);
      var before := Passes(ForwardCycle(names), imported, passes - 1);
      TurnsPartly(names, before, passes - 1, |names|);
      assert ForwardCycle(names)[..|names|] == ForwardCycle(names);
      Turned(names, Pass(ForwardCycle(names), before), passes - 1);
    }
  }

  lemma Unturned(names: seq<string>, imported: Bindings)
    requires |names| >= 2 && (forall i :: 0 <= i < |names| ==> names[i] !in imported)
    ensures Turning(names, imported, 0, 0)
  {
  }

  lemma Turned(names: seq<string>, bindings: Bindings, passes: nat)
    requires |names| >= 2 && Turning(names, bindings, passes, |names|)
    ensures Turning(names, bindings, passes + 1, 0)
  {
    hide Turn, Get;
  }

  /** A cycle of plain names, each assigned from the next in order, comes to rest exactly when it has two names: longer
      ones pass the names around for ever, however many passes there are. */
  lemma ForwardCycleExactly(names: seq<string>, imported: Bindings, passes: nat)
    requires |names| >= 2 && DistinctNames(names) && passes > 0 && forall i :: 0 <= i < |names| ==>
        names[i] !in imported
    ensures Quiet(ForwardCycle(names), Passes(ForwardCycle(names), imported, passes)) <==> |names| == 2
  {
    hide Pass, Passes, Quiet;
    CycleTurns(names, imported, passes);
    if |names| == 2 {
      TwoAtRest(names, Passes(ForwardCycle(names), imported, passes), passes);
    } else {
      NeverAtRest(names, Passes(ForwardCycle(names), imported, passes), passes);
    }
  }

  lemma TwoAtRest(names: seq<string>, bindings: Bindings, passes: nat)
    requires |names| >= 2 && DistinctNames(names) && |names| == 2 && passes > 0 && Turning(names, bindings, passes, 0)
    ensures Quiet(ForwardCycle(names), bindings)
  {
    hide DistinctNames;
    assert Turn(names, passes, 0) == names[1] && Turn(names, passes, 1) == names[1];
    assert names[0] in bindings && names[1] in bindings;
    assert bindings[names[0]] == names[1] && bindings[names[1]] == names[1];
  }

  lemma NeverAtRest(names: seq<string>, bindings: Bindings, passes: nat)
    requires |names| >= 2 && DistinctNames(names) && |names| > 2 && passes > 0 && Turning(names, bindings, passes, 0)
    ensures !Quiet(ForwardCycle(names), bindings)
  {
    hide DistinctNames, Turn;
    var cycle := ForwardCycle(names);
    TurnsDiffer(names, passes);
    TurnNonEmpty(names, passes, 1);
    NoEmptyName(names, Turn(names, passes, 1));
    assert cycle[0] == Assignment(names[0], Name(names[1]));
    assert Get(bindings, names[0]) == Turn(names, passes, 0) && Get(bindings, names[1]) == Turn(names, passes, 1);
    assert Changes(cycle[0], bindings);
  }

  lemma TurnsDiffer(names: seq<string>, passes: nat)
    requires |names| > 2 && DistinctNames(names) && passes > 0
    ensures Turn(names, passes, 0) != Turn(names, passes, 1)
  {
    hide DistinctNames;
    NextTurnDiffers(passes - 1, |names| - 1);
    DistinctAt(names, 1 + (passes - 1) % (|names| - 1), 1 + passes % (|names| - 1));
  }

  lemma NextTurnDiffers(a: nat, m: nat)
    requires m >= 2
    ensures a % m != (a + 1) % m
  {
    var q, r := a / m, a % m;
    assert a == q * m + r;
    if r + 1 < m {
      QuotientUnique(a + 1, q, r + 1, m);
    } else {
      assert a + 1 == (q + 1) * m;
      QuotientUnique(a + 1, q + 1, 0, m);
    }
  }

  /** x = a; y = x; x = b. The loop stops, and `y` is left bound to what `x` no longer is. */
  lemma {:induction false} AssignedTwice()
    ensures var nodes := [Assign([Name("x")], Name("a")), Assign([Name("y")], Name("x")),
        Assign([Name("x")], Name("b"))];
            Get(Resolved(nodes), "y") == "a" && Get(Resolved(nodes), "x") == "b"
  {
    hide Update, Pass, Imported, Assignments;
    var nodes := [Assign([Name("x")], Name("a")), Assign([Name("y")], Name("x")), Assign([Name("x")], Name("b"))];
    var first, second, third := Assignment("x", Name("a")), Assignment("y", Name("x")), Assignment("x", Name("b"));
    ThreeStatements(nodes[0], nodes[1], nodes[2]);
    assert AssignmentsOf(nodes[0]) + AssignmentsOf(nodes[1]) + AssignmentsOf(nodes[2]) == [first, second, third];
    PassOverThree(first, second, third, START);
    var settled := Pass([first, second, third], START);
    PassOverThree(first, second, third, settled);
    TwiceAssigned(START);
    TwiceAssigned(settled);
    assert Passes([first, second, third], START, 1) == Pass([first, second, third],
        Passes([first, second, third], START, 0)) == settled;
    StableStays([first, second, third], START, 1, 4);
  }

  lemma {:induction false} ThreeStatements(first: Statement, second: Statement, third: Statement)
    requires first.Assign? && second.Assign? && third.Assign?
    ensures Imported([first, second, third]) == START
    ensures Assignments([first, second, third]) == AssignmentsOf(first) + AssignmentsOf(second) + AssignmentsOf(third)
  {
    hide AssignmentsOf;
    assert Front([first, second, third]) == [first, second] && Front([first, second]) == [first] &&
        Front([first]) == [];
    assert Imported([]) == START && Imported([first]) == START && Imported([first, second]) == START;
    assert Assignments([first]) == AssignmentsOf(first);
    assert Assignments([first, second]) == AssignmentsOf(first) + AssignmentsOf(second);
  }

  /** Whatever `x` and `y` were bound to, one pass gives the same bindings, provided `a` and `b` are unbound. */
  lemma {:induction false} TwiceAssigned(bindings: Bindings)
    requires "a" !in bindings && "b" !in bindings
    ensures Update(Assignment("x", Name("b")),
        Update(Assignment("y", Name("x")), Update(Assignment("x", Name("a")), bindings))) ==
            bindings["x" := "b"]["y" := "a"]
  {
    UpdateName("x", "a", bindings);
    var one := bindings["x" := "a"];
    UpdateName("y", "x", one);
    var two := one["y" := "a"];
    UpdateName("x", "b", two);
    assert two["x" := "b"] == bindings["x" := "b"]["y" := "a"];
  }

  lemma {:induction false} UpdateName(name: string, source: string, bindings: Bindings)
    requires Get(bindings, source) != ""
    ensures Update(Assignment(name, Name(source)), bindings) == bindings[name := Get(bindings, source)]
  {
  }

  lemma {:induction false} PassOverThree(first: Assignment, second: Assignment, third: Assignment, bindings: Bindings)
    ensures Pass([first, second, third], bindings) == Update(third, Update(second, Update(first, bindings)))
  {
    hide Update;
    assert Front([first, second, third]) == [first, second] && Front([first, second]) == [first] &&
        Front([first]) == [];
    assert Pass([first], bindings) == Update(first, Pass([], bindings));
    assert Pass([first, second], bindings) == Update(second, Pass([first], bindings));
  }
}
