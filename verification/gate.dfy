/** The one-DDL gate: the text it reads, and the searches it runs over that text. */
module Gate {
  import opened Text
  import opened Scan
  import opened Words
  import opened Literals
  import opened Wrappers

  // ----- the text it reads

  predicate IsCommentLine(line: string) {
    "--" <= LTrim(line)
  }

  function WithoutComments(lines: seq<string>): seq<string> {
    if lines == [] then []
    else (if IsCommentLine(lines[0]) then [] else [lines[0]]) + WithoutComments(lines[1..])
  }

  // Every quoted literal emptied.
  function Blanked(t: string): string {
    if t == "" then ""
    else
      var n := QuotedLen(t);
      if n == 0 then [t[0]] + Blanked(t[1..]) else "''" + Blanked(t[n..])
  }

  function GateText(statement: string): string {
    Blanked(JoinLines(WithoutComments(SplitLines(statement))))
  }

  function Head(text: string): string {
    var lines := SplitLines(Trim(text));
    if lines == [] then "" else lines[0]
  }

  // ----- `\bON\s+CLUSTER\b`

  predicate ClusterAt(t: string) {
    Begins(t, "on") && |t| > 1 &&
    var s := SpaceLen(t[2..]);
    var r := t[2 + s..];
    s > 0 && Begins(r, "cluster") && (|r| <= 7 || !IsWord(r[7]))
  }

  // `inWord` says that the character before `t` is one of a word, so that none begins at `t`.
  predicate FindsCluster(t: string, inWord: bool) {
    t != "" && ((!inWord && ClusterAt(t)) || FindsCluster(t[1..], IsWord(t[0])))
  }

  // ----- `\bENGINE\s*=\s*([A-Za-z_][A-Za-z0-9_]*)`

  // `ENGINE\s*=`, or 0.
  function EngineLen(t: string): (n: nat)
    ensures n <= |t|
  {
    if !Begins(t, "engine") || |t| < 6 then 0
    else
      var s := SpaceLen(t[6..]);
      if 6 + s < |t| && t[6 + s] == '=' then 7 + s else 0
  }

  predicate IsNameStart(c: char) {
    IsFoldLetter(c) || c == '_'
  }

  predicate IsNameChar(c: char) {
    IsNameStart(c) || '0' <= c <= '9'
  }

  function NameLen(t: string): (n: nat)
    ensures n <= |t|
  {
    if t == "" || !IsNameChar(t[0]) then 0 else 1 + NameLen(t[1..])
  }

  // `ENGINE\s*=\s*` and what follows it.
  function BehindEngine(t: string): Option<string> {
    var n := EngineLen(t);
    if n == 0 then None else Some(t[n + SpaceLen(t[n..])..])
  }

  function EngineAt(t: string): Option<string> {
    match BehindEngine(t)
    case None => None
    case Some(r) => if r != "" && IsNameStart(r[0]) then Some(r[..NameLen(r)]) else None
  }

  // The engine name of the first match.
  function FirstEngine(t: string, inWord: bool): Option<string> {
    if t == "" then None
    else if !inWord && EngineAt(t).Some? then EngineAt(t)
    else FirstEngine(t[1..], IsWord(t[0]))
  }

  // ----- `\bENGINE\s*=\s*(Replicated[A-Za-z]*MergeTree)\s*\(\s*''\s*,\s*''`

  function LettersLen(t: string): (n: nat)
    ensures n <= |t|
  {
    if t == "" || !IsFoldLetter(t[0]) then 0 else 1 + LettersLen(t[1..])
  }

  // A run of letters that the bracket of the arguments follows is the whole of the name.
  predicate IsReplicatedFamily(name: string) {
    |name| >= 19 && Begins(name, "replicated") && Begins(name[|name| - 9..], "mergetree")
  }

  // `\s*` and then `part`: what follows them.
  function Behind(t: string, part: string): Option<string> {
    var r := t[SpaceLen(t)..];
    if part <= r then Some(r[|part|..]) else None
  }

  // `\s*''\s*,\s*''`
  predicate TwoLiterals(t: string) {
    match Behind(t, "''")
    case None => false
    case Some(r) =>
      match Behind(r, ",")
      case None => false
      case Some(r) => Behind(r, "''").Some?
  }

  function ExplicitAt(t: string): Option<string> {
    match BehindEngine(t)
    case None => None
    case Some(r) =>
      var n := LettersLen(r);
      if !IsReplicatedFamily(r[..n]) then None
      else match Behind(r[n..], "(")
        case None => None
        case Some(args) => if TwoLiterals(args) then Some(r[..n]) else None
  }

  function FirstExplicit(t: string, inWord: bool): Option<string> {
    if t == "" then None
    else if !inWord && ExplicitAt(t).Some? then ExplicitAt(t)
    else FirstExplicit(t[1..], IsWord(t[0]))
  }

  // ----- `^\s*CREATE\s+(?:OR\s+REPLACE\s+)?(DATABASE|TABLE|MATERIALIZED\s+VIEW)\b`

  datatype Kind = Database | Table | MaterializedView | Other

  // The word and at least one space, skipped.
  function Skip(t: string, word: string): Option<string> {
    if !Begins(t, word) || |word| > |t| then None
    else
      var s := SpaceLen(t[|word|..]);
      if s == 0 then None else Some(t[|word| + s..])
  }

  predicate Ends(t: string, word: string) {
    Begins(t, word) && (|t| <= |word| || !IsWord(t[|word|]))
  }

  // A dotted capital I matches, but upper-casing does not make it the I of the name the gate compares with.
  function KindAt(t: string): Kind {
    if Ends(t, "database") then Database
    else if Ends(t, "table") then Table
    else match Skip(t, "materialized")
      case None => Other
      case Some(r) => if Ends(r, "view") && '\U{130}' !in t[..12] && '\U{130}' !in r[..Min4(|r|)] then MaterializedView
        else Other
  }

  function Min4(n: nat): nat { if n < 4 then n else 4 }

  function KindOf(text: string): Kind {
    match Skip(text[SpaceLen(text)..], "create")
    case None => Other
    case Some(r) =>
      match Skip(r, "or")
      case None => KindAt(r)
      case Some(q) =>
        match Skip(q, "replace")
        case None => KindAt(r)
        case Some(p) => if KindAt(p) == Other then KindAt(r) else KindAt(p)
  }

  // ----- what it finds

  datatype Problem =
    | CarriesOnCluster(head: string)
    | DeclaresNoEngine(head: string)
    | NotReplicated(engine: string, head: string)
    | InnerNotReplicated(engine: string, head: string)
    | NamesItsOwnPath(engine: string, head: string)

  predicate StoresNoRows(engine: string) {
    engine == "Merge"
  }

  ghost predicate IsProblem(text: string, p: Problem) {
    && p.head == Head(text)
    && var kind := KindOf(text);
       var engine := FirstEngine(text, false);
       match p
       case CarriesOnCluster(_) => FindsCluster(text, false) && !(kind == Database && engine == Some("Replicated"))
       case DeclaresNoEngine(_) => kind == Table && engine == None
       case NotReplicated(e, _) => kind == Table && engine == Some(e) && !("Replicated" <= e) && !StoresNoRows(e)
       case InnerNotReplicated(e, _) => kind == MaterializedView && engine == Some(e) && !("Replicated" <= e)
       case NamesItsOwnPath(e, _) => FirstExplicit(text, false) == Some(e)
  }

  method DdlViolations(statement: string) returns (problems: seq<Problem>)
    ensures forall p :: p in problems <==> IsProblem(GateText(statement), p)
    ensures forall i, j :: 0 <= i < j < |problems| ==> problems[i] != problems[j]
  {
    hide GateText, Head, KindOf, FirstEngine, FindsCluster, FirstExplicit, StoresNoRows;
    var text := GateText(statement);
    var head, kind, engine := Head(text), KindOf(text), FirstEngine(text, false);
    problems := [];
    if FindsCluster(text, false) {
      var replicated_database := kind == Database && engine == Some("Replicated");
      if !replicated_database {
        problems := problems + [CarriesOnCluster(head)];
      }
    }
    if kind == Table {
      if engine == None {
        problems := problems + [DeclaresNoEngine(head)];
      } else if !("Replicated" <= engine.value) && !StoresNoRows(engine.value) {
        problems := problems + [NotReplicated(engine.value, head)];
      }
    }
    if kind == MaterializedView && engine != None && !("Replicated" <= engine.value) {
      problems := problems + [InnerNotReplicated(engine.value, head)];
    }
    var explicit := FirstExplicit(text, false);
    if explicit != None {
      problems := problems + [NamesItsOwnPath(explicit.value, head)];
    }
  }
}
