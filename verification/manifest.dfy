/** The manifest check: an accumulating loop, and what passing it promises whoever applies the list. */
module Manifest {
  import opened Wrappers


  const KINDS := {"database", "table", "materialized_view", "view", "role", "topic"}
  const TOPOLOGIES := {"resolved", "fixed"}
  const SQL_KINDS := {"view"}
  const DATABASELESS_KINDS := {"topic"}

  datatype Database = Database(key: string, parameter: Option<string>, name: Option<string>)
  datatype Object = Object(
    id: string, kind: string, topology: string, database: Option<string>, defines: Option<string>,
      dependsOn: seq<string>)
  datatype Manifest = Manifest(databases: seq<Database>, objects: seq<Object>)

  datatype Problem =
    | DeclaredTwice(id: string)
    | UnknownKind(id: string)
    | UnknownTopology(id: string)
    | NamesDatabase(id: string)
    | UndeclaredDatabase(id: string)
    | DependsOnItself(id: string)
    | NotDeclaredBefore(id: string, dependency: string)
    | NoSuchFile(id: string, file: string)
    | NeedsDefines(id: string)

  // An empty string counts as none, as it does in an `if`.
  predicate Given(o: Option<string>) {
    o.Some? && o.value != ""
  }

  function FileOf(obj: Object): string
    requires obj.defines.Some?
  {
    obj.defines.value + if obj.kind in SQL_KINDS then ".sql" else ".yaml"
  }

  function Keys(m: Manifest): set<string> {
    set d | d in m.databases :: d.key
  }

  function Ids(objs: seq<Object>): set<string> {
    set o | o in objs :: o.id
  }

  // `p` is a fault of the object at `i`.
  ghost predicate Fault(m: Manifest, isFile: string -> bool, i: nat, p: Problem)
    requires i < |m.objects|
  {
    var obj := m.objects[i];
    p.id == obj.id &&
    match p
    case DeclaredTwice(_) => exists j :: 0 <= j < i && m.objects[j].id == obj.id
    case UnknownKind(_) => obj.kind !in KINDS
    case UnknownTopology(_) => obj.topology !in TOPOLOGIES
    case NamesDatabase(_) => obj.kind in DATABASELESS_KINDS && Given(obj.database)
    case UndeclaredDatabase(_) =>
      obj.kind !in DATABASELESS_KINDS && (obj.database.None? || obj.database.value !in Keys(m))
    case DependsOnItself(_) => obj.id in obj.dependsOn
    case NotDeclaredBefore(_, dep) =>
      dep in obj.dependsOn && dep != obj.id && forall j :: 0 <= j <= i ==> m.objects[j].id != dep
    case NoSuchFile(_, file) => Given(obj.defines) && file == FileOf(obj) && !isFile(file)
    case NeedsDefines(_) => !Given(obj.defines) && obj.kind != "database"
  }

  // The loop names every fault of every object, and nothing else.
  method Check(m: Manifest, isFile: string -> bool) returns (problems: seq<Problem>)
    ensures problems == [] <==> WellFormed(m, isFile)
    ensures forall p :: p in problems <==> exists i :: 0 <= i < |m.objects| && Fault(m, isFile, i, p)
  {
    problems := [];
    var keys := Keys(m);
    var seen: set<string> := {};
    var n := 0;
    while n < |m.objects|
      invariant 0 <= n <= |m.objects|
      invariant seen == Ids(m.objects[..n])
      invariant forall p :: p in problems <==> exists i :: 0 <= i < n && Fault(m, isFile, i, p)
    {
      var found := CheckObject(m, isFile, n, seen);
      seen := seen + {m.objects[n].id};
      assert m.objects[..n + 1] == m.objects[..n] + [m.objects[n]];
      ghost var before := problems;
      problems := problems + found;
      forall p ensures p in problems <==> exists i :: 0 <= i < n + 1 && Fault(m, isFile, i, p) {
        assert p in problems <==> p in before || p in found;
      }
      n := n + 1;
    }
    NoFaultIsWellFormed(m, isFile);
    if problems == [] {
      forall i, p | 0 <= i < |m.objects| ensures !Fault(m, isFile, i, p) {
        assert p !in problems;
      }
    } else {
      assert problems[0] in problems;
    }
  }

  // The body of the loop, on the object at `n`.
  method CheckObject(m: Manifest, isFile: string -> bool, n: nat, seen: set<string>) returns (problems: seq<Problem>)
    requires n < |m.objects| && seen == Ids(m.objects[..n])
    ensures forall p :: p in problems <==> Fault(m, isFile, n, p)
  {
    var obj := m.objects[n];
    problems := [];
    if obj.id in seen {
      problems := problems + [DeclaredTwice(obj.id)];
    }
    SeenBefore(m, n);
    if obj.kind !in KINDS {
      problems := problems + [UnknownKind(obj.id)];
    }
    if obj.topology !in TOPOLOGIES {
      problems := problems + [UnknownTopology(obj.id)];
    }
    if obj.kind in DATABASELESS_KINDS {
      if Given(obj.database) {
        problems := problems + [NamesDatabase(obj.id)];
      }
    } else if obj.database.None? || obj.database.value !in Keys(m) {
      problems := problems + [UndeclaredDatabase(obj.id)];
    }
    var k := 0;
    ghost var before := problems;
    while k < |obj.dependsOn|
      invariant 0 <= k <= |obj.dependsOn|
      invariant forall p :: p in problems <==> p in before || Dangling(m, n, obj.dependsOn[..k], p)
    {
      var dependency := obj.dependsOn[k];
      assert obj.dependsOn[..k + 1] == obj.dependsOn[..k] + [dependency];
      if dependency == obj.id {
        problems := problems + [DependsOnItself(obj.id)];
      } else if dependency !in seen + {obj.id} {
        problems := problems + [NotDeclaredBefore(obj.id, dependency)];
      }
      k := k + 1;
    }
    assert obj.dependsOn[..k] == obj.dependsOn;
    if Given(obj.defines) {
      if !isFile(FileOf(obj)) {
        problems := problems + [NoSuchFile(obj.id, FileOf(obj))];
      }
    } else if obj.kind != "database" {
      problems := problems + [NeedsDefines(obj.id)];
    }
  }

  ghost predicate Dangling(m: Manifest, n: nat, deps: seq<string>, p: Problem)
    requires n < |m.objects|
  {
    var obj := m.objects[n];
    || (p == DependsOnItself(obj.id) && obj.id in deps)
    || (p.NotDeclaredBefore? && p.id == obj.id && p.dependency in deps && p.dependency != obj.id
        && forall j :: 0 <= j <= n ==> m.objects[j].id != p.dependency)
  }

  lemma SeenBefore(m: Manifest, n: nat)
    requires n < |m.objects|
    ensures forall id :: id in Ids(m.objects[..n]) <==> exists j :: 0 <= j < n && m.objects[j].id == id
  {
    var before := m.objects[..n];
    forall id | exists j :: 0 <= j < n && m.objects[j].id == id ensures id in Ids(before) {
      var j :| 0 <= j < n && m.objects[j].id == id;
      assert before[j] in before;
    }
  }

  // ----- well-formed manifests

  ghost predicate ObjectOk(m: Manifest, isFile: string -> bool, i: nat)
    requires i < |m.objects|
  {
    var obj := m.objects[i];
    && obj.kind in KINDS && obj.topology in TOPOLOGIES
    && (if obj.kind == "topic" then !Given(obj.database) else obj.database.Some? && obj.database.value in Keys(m))
    && (Given(obj.defines) ==> isFile(FileOf(obj))) && (!Given(obj.defines) ==> obj.kind == "database")
    && forall dep :: dep in obj.dependsOn ==> exists j :: 0 <= j < i && m.objects[j].id == dep
  }

  // What the check means: no loop, no state.
  ghost predicate WellFormed(m: Manifest, isFile: string -> bool) {
    && (forall i, j :: 0 <= i < j < |m.objects| ==> m.objects[i].id != m.objects[j].id)
    && (forall i :: 0 <= i < |m.objects| ==> ObjectOk(m, isFile, i))
  }

  // No fault anywhere is exactly well-formedness.
  lemma NoFaultIsWellFormed(m: Manifest, isFile: string -> bool)
    ensures (forall i, p :: 0 <= i < |m.objects| ==> !Fault(m, isFile, i, p)) <==> WellFormed(m, isFile)
  {
    if forall i, p :: 0 <= i < |m.objects| ==> !Fault(m, isFile, i, p) {
      forall i, j | 0 <= i < j < |m.objects| ensures m.objects[i].id != m.objects[j].id {
        assert !Fault(m, isFile, j, DeclaredTwice(m.objects[j].id));
      }
      forall i | 0 <= i < |m.objects| ensures ObjectOk(m, isFile, i) {
        NoFaultObject(m, isFile, i);
      }
    }
    if WellFormed(m, isFile) {
      forall i, p | 0 <= i < |m.objects| ensures !Fault(m, isFile, i, p) {
        assert ObjectOk(m, isFile, i);
      }
    }
  }

  lemma NoFaultObject(m: Manifest, isFile: string -> bool, i: nat)
    requires i < |m.objects| && forall p :: !Fault(m, isFile, i, p)
    ensures ObjectOk(m, isFile, i)
  {
    var obj := m.objects[i];
    assert !Fault(m, isFile, i, UnknownKind(obj.id)) && !Fault(m, isFile, i, UnknownTopology(obj.id));
    assert !Fault(m, isFile, i, NamesDatabase(obj.id)) && !Fault(m, isFile, i, UndeclaredDatabase(obj.id));
    assert !Fault(m, isFile, i, NeedsDefines(obj.id)) && !Fault(m, isFile, i, DependsOnItself(obj.id));
    if Given(obj.defines) {
      assert !Fault(m, isFile, i, NoSuchFile(obj.id, FileOf(obj)));
    }
    forall dep | dep in obj.dependsOn ensures exists j :: 0 <= j < i && m.objects[j].id == dep {
      assert !Fault(m, isFile, i, NotDeclaredBefore(obj.id, dep));
    }
  }

  // ----- what applying the list can rely on

  // The object at `i` needs the one at `j`.
  ghost predicate Needs(m: Manifest, i: nat, j: nat)
    requires i < |m.objects| && j < |m.objects|
  {
    m.objects[j].id in m.objects[i].dependsOn
  }

  ghost predicate IsChain(m: Manifest, path: seq<nat>) {
    (forall k :: 0 <= k < |path| ==> path[k] < |m.objects|) &&
    forall k :: 0 <= k < |path| - 1 ==> Needs(m, path[k], path[k + 1])
  }

  // Following dependencies always leads towards the front of the list, so no chain comes back.
  lemma {:induction false} ChainDescends(m: Manifest, isFile: string -> bool, path: seq<nat>)
    requires WellFormed(m, isFile) && IsChain(m, path) && |path| > 1
    ensures path[|path| - 1] < path[0]
  {
    assert Needs(m, path[0], path[1]) && ObjectOk(m, isFile, path[0]);
    if |path| > 2 {
      var rest := path[1..];
      forall k | 0 <= k < |rest| - 1 ensures Needs(m, rest[k], rest[k + 1]) {
        var j := k + 1;
        assert Needs(m, path[j], path[j + 1]);
      }
      ChainDescends(m, isFile, rest);
    }
  }

  // Creating the chosen objects of a list in its order, each only once everything it names is there.
  function Create(objs: seq<Object>, chosen: set<string>, created: set<string>): Option<set<string>>
    decreases |objs|
  {
    if objs == [] then Some(created)
    else if objs[0].id !in chosen then Create(objs[1..], chosen, created)
    else if exists dep <- objs[0].dependsOn :: dep !in created then None
    else Create(objs[1..], chosen, created + {objs[0].id})
  }

  ghost predicate DependencyClosed(m: Manifest, chosen: set<string>) {
    forall i :: 0 <= i < |m.objects| && m.objects[i].id in chosen ==>
      forall dep :: dep in m.objects[i].dependsOn ==> dep in chosen
  }

  lemma {:induction false} CreateFrom(m: Manifest, isFile: string -> bool, chosen: set<string>, n: nat)
    requires WellFormed(m, isFile) && DependencyClosed(m, chosen) && n <= |m.objects|
    ensures Create(m.objects[n..], chosen, chosen * Ids(m.objects[..n])) == Some(chosen * Ids(m.objects))
    decreases |m.objects| - n
  {
    if n == |m.objects| {
      assert m.objects[..n] == m.objects;
    } else {
      var obj := m.objects[n];
      assert m.objects[n..][1..] == m.objects[n + 1..] && m.objects[n..][0] == obj;
      assert m.objects[..n + 1] == m.objects[..n] + [obj];
      SeenBefore(m, n);
      assert ObjectOk(m, isFile, n);
      CreateFrom(m, isFile, chosen, n + 1);
      assert Ids(m.objects[..n + 1]) == Ids(m.objects[..n]) + {obj.id};
      var created := chosen * Ids(m.objects[..n]);
      if obj.id in chosen {
        assert chosen * Ids(m.objects[..n + 1]) == created + {obj.id};
      } else {
        assert chosen * Ids(m.objects[..n + 1]) == created;
      }
    }
  }

  // Any dependency-closed choice can be created in list order without meeting a missing dependency.
  lemma CreateNeverMissesOne(m: Manifest, isFile: string -> bool, chosen: set<string>)
    requires WellFormed(m, isFile) && DependencyClosed(m, chosen)
    ensures Create(m.objects, chosen, {}) == Some(chosen * Ids(m.objects))
  {
    CreateFrom(m, isFile, chosen, 0);
    assert m.objects[0..] == m.objects && m.objects[..0] == [] && chosen * Ids([]) == {};
  }

  // ----- names of databases

  // The first declaration of the key gives this name.
  ghost predicate NamedBy(m: Manifest, key: string, dataDatabase: string, i: nat, name: string) {
    && i < |m.databases| && m.databases[i].key == key
    && (forall j :: 0 <= j < i ==> m.databases[j].key != key)
    && name == if Given(m.databases[i].name) then m.databases[i].name.value else dataDatabase
  }

  method DatabaseName(m: Manifest, key: string, dataDatabase: string) returns (r: Option<string>)
    ensures r.None? <==> key !in Keys(m)
    ensures r.Some? ==> exists i :: NamedBy(m, key, dataDatabase, i, r.value)
  {
    var i := 0;
    while i < |m.databases|
      invariant 0 <= i <= |m.databases|
      invariant forall j :: 0 <= j < i ==> m.databases[j].key != key
    {
      var declared := m.databases[i];
      if declared.key == key {
        assert declared in m.databases;
        if Given(declared.name) {
          assert NamedBy(m, key, dataDatabase, i, declared.name.value);
          return Some(declared.name.value);
        }
        assert NamedBy(m, key, dataDatabase, i, dataDatabase);
        return Some(dataDatabase);
      }
      i := i + 1;
    }
    r := None;
  }
}
