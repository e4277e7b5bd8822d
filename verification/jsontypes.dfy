/** The textual search for a JSON column, and the type trees it stands for. */
module JsonTypes {
  import opened Text
  import opened Scan
  import opened Words
  import opened Literals
  import opened Seams
  import opened Platforms
  import opened Wrappers

  // ----- the search: literals dropped, then `\bJSON\b`

  // `_QUOTED_LITERAL.sub("", t)`
  function Unquoted(t: string): string {
    if t == "" then ""
    else
      var n := QuotedLen(t);
      if n == 0 then [t[0]] + Unquoted(t[1..]) else Unquoted(t[n..])
  }

  predicate JsonAt(t: string) {
    Begins(t, "json") && (|t| <= 4 || !IsWord(t[4]))
  }

  // `inWord` says that the character before `t` is one of a word.
  predicate FindsJson(t: string, inWord: bool) {
    t != "" && ((!inWord && JsonAt(t)) || FindsJson(t[1..], IsWord(t[0])))
  }

  predicate NamesJson(chType: string) {
    FindsJson(Unquoted(chType), false)
  }

  // The settings of a table, from the types of its columns: the first type that is or wraps JSON decides.
  method JsonTableSettings(types: seq<string>, base: seq<Setting>, own: seq<Setting>) returns (settings: seq<Setting>)
    ensures settings == if exists t <- types :: NamesJson(t) then Merged(base, own) else []
  {
    hide NamesJson, Merged;
    for i := 0 to |types|
      invariant forall j :: 0 <= j < i ==> !NamesJson(types[j])
    {
      if NamesJson(types[i]) {
        return Merged(base, own);
      }
    }
    settings := [];
  }

  // ----- type trees

  datatype Type = Named(name: string, args: Args)
  datatype Args = Nil | Cons(head: Arg, comma: string, tail: Args)

  // A type, an element or a path with its type, its name as it is written, a number, an enum label with its value, a
  // text such as a time zone, a setting.
  // Commas and equals signs stand as they are written, with any whitespace around them.
  datatype Arg =
    | Of(t: Type)
    | Element(name: string, t: Type)
    | Number(n: string)
    | Label(body: string, equals: string, n: string)
    | Quoted(body: string)
    | Param(name: string, equals: string, n: string)

  function Print(t: Type): string {
    if t.args.Nil? then t.name else t.name + ("(" + (PrintArgs(t.args) + ")"))
  }

  function PrintArgs(args: Args): string {
    match args
    case Nil => ""
    case Cons(a, comma, rest) => PrintArg(a) + (if rest.Nil? then "" else comma + PrintArgs(rest))
  }

  function PrintArg(a: Arg): string {
    match a
    case Of(t) => Print(t)
    case Element(name, t) => name + (" " + Print(t))
    case Number(n) => n
    case Label(body, equals, n) => "'" + body + "'" + (equals + n)
    case Quoted(body) => "'" + body + "'"
    case Param(name, equals, n) => name + (equals + n)
  }

  predicate IsIdent(n: string) {
    n != "" && forall i :: 0 <= i < |n| ==> IsWord(n[i])
  }

  // One sign, and whitespace around it.
  predicate IsMark(s: string, mark: char) {
    multiset(s)[mark] == 1 && forall i :: 0 <= i < |s| ==> s[i] == mark || IsSpace(s[i])
  }

  // An integer, negative or not.
  predicate IsNumber(n: string) {
    n != "" && Digits(if n[0] == '-' then n[1..] else n)
  }

  predicate IsType(t: Type) {
    IsIdent(t.name) && AreArgs(t.args)
  }

  predicate AreArgs(args: Args) {
    args.Nil? || (IsArg(args.head) && IsMark(args.comma, ',') && AreArgs(args.tail))
  }

  predicate IsArg(a: Arg) {
    match a
    case Of(t) => IsType(t)
    case Element(name, t) => '\'' !in name && IsType(t)
    case Number(n) => IsNumber(n)
    case Label(body, equals, n) => IsBody(body) && IsMark(equals, '=') && IsNumber(n)
    case Quoted(body) => IsBody(body)
    case Param(name, equals, n) => IsIdent(name) && IsMark(equals, '=') && IsNumber(n)
  }

  predicate IsJson(name: string) {
    |name| == 4 && Begins(name, "json")
  }

  // Is the type JSON, or does it wrap it?
  predicate HasJson(t: Type) {
    IsJson(t.name) || AnyJson(t.args)
  }

  predicate AnyJson(args: Args) {
    args.Cons? && ((match args.head case Of(t) => HasJson(t) case Element(_, t) => HasJson(t) case _ => false)
      || AnyJson(args.tail))
  }

  // Does the word JSON stand in the name of an element, or is a setting called so, somewhere in it?
  predicate CallsJson(t: Type) {
    AnyCalled(t.args)
  }

  predicate AnyCalled(args: Args) {
    args.Cons? &&
    ((match args.head
      case Of(t) => CallsJson(t)
      case Element(name, t) => FindsJson(name, false) || CallsJson(t)
      case Param(name, _, _) => IsJson(name)
      case _ => false) || AnyCalled(args.tail))
  }

  // ----- what is left without the literals

  function Shown(t: Type): string {
    if t.args.Nil? then t.name else t.name + ("(" + (ShownArgs(t.args) + ")"))
  }

  function ShownArgs(args: Args): string {
    match args
    case Nil => ""
    case Cons(a, comma, rest) => ShownArg(a) + (if rest.Nil? then "" else comma + ShownArgs(rest))
  }

  function ShownArg(a: Arg): string {
    match a
    case Of(t) => Shown(t)
    case Element(name, t) => name + (" " + Shown(t))
    case Number(n) => n
    case Label(_, equals, n) => equals + n
    case Quoted(_) => ""
    case Param(name, equals, n) => name + (equals + n)
  }

  lemma {:induction false} UnquotedPlain(p: string, x: string)
    requires '\'' !in p
    ensures Unquoted(p + x) == p + Unquoted(x)
  {
    if p == "" {
      assert p + x == x;
    } else {
      assert (p + x)[0] == p[0] && (p + x)[1..] == p[1..] + x;
      UnquotedPlain(p[1..], x);
      assert [p[0]] + (p[1..] + Unquoted(x)) == p + Unquoted(x);
    }
  }

  lemma UnquotedLiteral(body: string, x: string)
    requires IsBody(body)
    ensures Unquoted("'" + body + "'" + x) == Unquoted(x)
  {
    QuotedBody(body, x);
    hide QuotedLen;
    var t := "'" + body + "'" + x;
    assert t[|body| + 2..] == x;
  }

  lemma IdentHasNoQuote(n: string)
    requires IsIdent(n)
    ensures '\'' !in n
  {
    assert forall c <- n :: IsWord(c);
  }

  lemma {:induction false} UnquotedType(t: Type, x: string)
    requires IsType(t)
    ensures Unquoted(Print(t) + x) == Shown(t) + Unquoted(x)
    decreases t
  {
    hide Unquoted, IsIdent;
    IdentHasNoQuote(t.name);
    if t.args.Nil? {
      UnquotedPlain(t.name, x);
    } else {
      var close := ")" + x;
      UnquotedArgs(t.args, close);
      UnquotedPlain(")", x);
      UnquotedPlain("(", PrintArgs(t.args) + close);
      UnquotedPlain(t.name, "(" + (PrintArgs(t.args) + close));
      Bracket(t.name, PrintArgs(t.args), x);
      Bracket(t.name, ShownArgs(t.args), Unquoted(x));
    }
  }

  lemma Bracket(name: string, args: string, x: string)
    ensures name + ("(" + (args + ")")) + x == name + ("(" + (args + (")" + x)))
  {
  }

  lemma {:induction false} UnquotedArgs(args: Args, x: string)
    requires AreArgs(args)
    ensures Unquoted(PrintArgs(args) + x) == ShownArgs(args) + Unquoted(x)
    decreases args
  {
    hide Unquoted, PrintArg, ShownArg, IsArg, IsMark;
    match args
    case Nil =>
      assert "" + x == x && "" + Unquoted(x) == Unquoted(x);
    case Cons(a, comma, rest) =>
      if rest.Nil? {
        UnquotedArg(a, x);
        assert PrintArg(a) + "" == PrintArg(a) && ShownArg(a) + "" == ShownArg(a);
      } else {
        UnquotedArgs(rest, x);
        MarkIsSign(comma, ',');
        UnquotedPlain(comma, PrintArgs(rest) + x);
        Assoc(comma, PrintArgs(rest), x);
        UnquotedArg(a, comma + PrintArgs(rest) + x);
        Assoc(PrintArg(a), comma + PrintArgs(rest), x);
        Assoc(comma, ShownArgs(rest), Unquoted(x));
        Assoc(ShownArg(a), comma + ShownArgs(rest), Unquoted(x));
      }
  }

  lemma {:induction false} UnquotedArg(a: Arg, x: string)
    requires IsArg(a)
    ensures Unquoted(PrintArg(a) + x) == ShownArg(a) + Unquoted(x)
    decreases a
  {
    hide Unquoted, IsIdent, IsBody, IsType, Print, Shown, IsMark, IsNumber;
    match a
    case Of(t) => UnquotedType(t, x);
    case Element(name, t) =>
      UnquotedType(t, x);
      UnquotedPlain(" ", Print(t) + x);
      UnquotedPlain(name, " " + (Print(t) + x));
      Assoc(" ", Print(t), x);
      Assoc(name, " " + Print(t), x);
      Assoc(" ", Shown(t), Unquoted(x));
      Assoc(name, " " + Shown(t), Unquoted(x));
    case Number(n) =>
      NumberHasNoQuote(n);
      UnquotedPlain(n, x);
    case Label(body, equals, n) =>
      MarkIsSign(equals, '=');
      NumberHasNoQuote(n);
      UnquotedPlain(equals + n, x);
      UnquotedLiteral(body, equals + n + x);
      Assoc("'" + body + "'", equals + n, x);
    case Quoted(body) =>
      UnquotedLiteral(body, x);
      assert "" + Unquoted(x) == Unquoted(x);
    case Param(name, equals, n) =>
      IdentHasNoQuote(name);
      MarkIsSign(equals, '=');
      NumberHasNoQuote(n);
      UnquotedPlain(equals + n, x);
      UnquotedPlain(name, equals + n + x);
      Assoc(name, equals + n, x);
      Assoc(name, equals + n, Unquoted(x));
  }

  lemma MarkIsSign(s: string, mark: char)
    requires IsMark(s, mark) && (mark == ',' || mark == '=')
    ensures s != "" && '\'' !in s && forall i :: 0 <= i < |s| ==> !IsWord(s[i])
  {
  }

  lemma NumberHasNoQuote(n: string)
    requires IsNumber(n)
    ensures '\'' !in n
  {
    assert n == [n[0]] + n[1..];
  }

  // ----- a word is found in one part or the other

  lemma JsonAtIs(t: string)
    requires JsonAt(t)
    ensures |t| >= 4 && forall i :: 0 <= i < 4 ==> IsWord(t[i])
  {
    assert forall i :: 0 <= i < 4 ==> 'a' <= "json"[i] <= 'z';
    forall i | 0 <= i < 4 ensures i < |t| && IsWord(t[i]) {
      BeginsAt(t, "json", i);
    }
    BeginsAt(t, "json", 3);
  }

  lemma JsonAtSeam(a: string, b: string)
    requires a != "" && (b == "" || !IsWord(a[|a| - 1]) || !IsWord(b[0]))
    ensures JsonAt(a + b) == JsonAt(a)
  {
    var t := a + b;
    if JsonAt(t) {
      JsonAtIs(t);
    }
    if JsonAt(a) {
      JsonAtIs(a);
    }
    hide JsonAt;
    assert b != "" ==> t[|a|] == b[0];
    assert t[|a| - 1] == a[|a| - 1];
    if |a| >= 4 {
      BeginsLocal(a, b, "json");
      assert |a| > 4 ==> t[4] == a[4];
      AtIs(a);
      AtIs(t);
    }
  }

  lemma AtIs(t: string)
    ensures JsonAt(t) <==> Begins(t, "json") && (|t| <= 4 || !IsWord(t[4]))
  {
  }

  lemma {:induction false} InWordSame(b: string)
    requires b == "" || !IsWord(b[0])
    ensures FindsJson(b, true) == FindsJson(b, false)
  {
    if JsonAt(b) {
      JsonAtIs(b);
    }
  }

  lemma {:induction false} JsonSeam(a: string, b: string, inWord: bool)
    requires a != "" && (b == "" || !IsWord(a[|a| - 1]) || !IsWord(b[0]))
    ensures FindsJson(a + b, inWord) <==> FindsJson(a, inWord) || FindsJson(b, false)
  {
    var t := a + b;
    assert t[0] == a[0] && t[1..] == a[1..] + b;
    JsonAtSeam(a, b);
    hide JsonAt;
    if |a| == 1 {
      assert a[1..] == "" && a[1..] + b == b;
      if IsWord(a[0]) {
        InWordSame(b);
      }
    } else {
      assert a[1..][|a| - 2] == a[|a| - 1];
      JsonSeam(a[1..], b, IsWord(a[0]));
    }
  }

  lemma {:induction false} NoJsonInside(t: string)
    requires forall i :: 0 <= i < |t| ==> IsWord(t[i])
    ensures !FindsJson(t, true)
  {
    if t != "" {
      assert forall i :: 0 <= i < |t[1..]| ==> t[1..][i] == t[i + 1];
      NoJsonInside(t[1..]);
    }
  }

  lemma WordIsJson(n: string)
    requires IsIdent(n)
    ensures FindsJson(n, false) <==> IsJson(n)
  {
    assert forall i :: 0 <= i < |n[1..]| ==> n[1..][i] == n[i + 1];
    NoJsonInside(n[1..]);
    if JsonAt(n) {
      JsonAtIs(n);
    }
    assert IsWord(n[0]) && (|n| > 4 ==> IsWord(n[4]));
    hide Begins;
  }

  // A sign is no part of a word.
  lemma SignFirst(sign: string, b: string)
    requires sign != "" && forall i :: 0 <= i < |sign| ==> !IsWord(sign[i])
    ensures FindsJson(sign + b, false) == FindsJson(b, false)
  {
    JsonSeam(sign, b, false);
    NoJsonInSigns(sign);
  }

  lemma {:induction false} NoJsonInSigns(sign: string)
    requires forall i :: 0 <= i < |sign| ==> !IsWord(sign[i])
    ensures !FindsJson(sign, false)
  {
    if sign != "" {
      assert forall i :: 0 <= i < |sign[1..]| ==> sign[1..][i] == sign[i + 1];
      NoJsonInSigns(sign[1..]);
      if JsonAt(sign) {
        JsonAtIs(sign);
      }
    }
  }

  lemma DigitsHaveNoJson(n: string)
    requires Digits(n)
    ensures !FindsJson(n, false)
  {
    assert forall i :: 0 <= i < |n| ==> IsWord(n[i]);
    WordIsJson(n);
    assert "json"[0] == 'j';
    BeginsNot(n, "json", 0);
  }

  lemma NumberHasNoJson(n: string)
    requires IsNumber(n)
    ensures !FindsJson(n, false)
  {
    hide FindsJson;
    if n[0] == '-' {
      DigitsHaveNoJson(n[1..]);
      SignFirst("-", n[1..]);
      assert "-" + n[1..] == n;
    } else {
      DigitsHaveNoJson(n);
    }
  }

  // A part before a sign is searched by itself.
  lemma BeforeSign(a: string, sign: string, b: string)
    requires sign != "" && forall i :: 0 <= i < |sign| ==> !IsWord(sign[i])
    ensures FindsJson(a + (sign + b), false) <==> FindsJson(a, false) || FindsJson(b, false)
  {
    SignFirst(sign, b);
    hide FindsJson;
    if a == "" {
      assert a + (sign + b) == sign + b;
      assert !FindsJson("", false) by { NothingFound(); }
    } else {
      assert (sign + b)[0] == sign[0];
      JsonSeam(a, sign + b, false);
    }
  }

  lemma NothingFound()
    ensures !FindsJson("", false)
  {
  }

  lemma {:induction false} FoundInType(t: Type)
    requires IsType(t)
    ensures FindsJson(Shown(t), false) <==> HasJson(t) || CallsJson(t)
    decreases t
  {
    hide FindsJson, IsIdent, IsJson;
    WordIsJson(t.name);
    if t.args.Cons? {
      var args := ShownArgs(t.args);
      FoundInArgs(t.args);
      BeforeSign(args, ")", "");
      NothingFound();
      assert ")" + "" == ")";
      BeforeSign(t.name, "(", args + ")");
    }
  }

  lemma {:induction false} FoundInArgs(args: Args)
    requires AreArgs(args)
    ensures FindsJson(ShownArgs(args), false) <==> AnyJson(args) || AnyCalled(args)
    decreases args
  {
    hide FindsJson, ShownArg, IsArg, IsMark, HasJson, CallsJson, IsJson;
    match args
    case Nil => NothingFound();
    case Cons(a, comma, rest) =>
      FoundInArg(a);
      if rest.Nil? {
        assert ShownArg(a) + "" == ShownArg(a);
      } else {
        FoundInArgs(rest);
        MarkIsSign(comma, ',');
        BeforeSign(ShownArg(a), comma, ShownArgs(rest));
      }
  }

  lemma {:induction false} FoundInArg(a: Arg)
    requires IsArg(a)
    ensures FindsJson(ShownArg(a), false)
            <==> match a
                 case Of(t) => HasJson(t) || CallsJson(t)
                 case Element(name, t) => FindsJson(name, false) || HasJson(t) || CallsJson(t)
                 case Param(name, _, _) => IsJson(name)
                 case _ => false
    decreases a
  {
    hide FindsJson, IsType, Shown, HasJson, CallsJson, IsJson, IsMark, IsNumber;
    match a
    case Of(t) => FoundInType(t);
    case Element(name, t) =>
      FoundInType(t);
      BeforeSign(name, " ", Shown(t));
    case Number(n) => NumberHasNoJson(n);
    case Label(body, equals, n) =>
      NumberHasNoJson(n);
      MarkIsSign(equals, '=');
      SignFirst(equals, n);
    case Quoted(body) => NothingFound();
    case Param(name, equals, n) =>
      WordIsJson(name);
      NumberHasNoJson(n);
      MarkIsSign(equals, '=');
      BeforeSign(name, equals, n);
  }

  // The text of a type names JSON exactly when its tree is or wraps JSON, or calls an element so.
  lemma TextNamesJson(t: Type)
    requires IsType(t)
    ensures NamesJson(Print(t)) <==> HasJson(t) || CallsJson(t)
  {
    UnquotedType(t, "");
    assert Print(t) + "" == Print(t) && Shown(t) + "" == Shown(t) && Unquoted("") == "";
    hide Unquoted, Print, Shown, HasJson, CallsJson, FindsJson;
    FoundInType(t);
  }

  // An element that is called JSON is taken for a JSON column.
  lemma ElementsMislead()
    ensures var t := Named("Tuple", Cons(Element("json", Named("UInt8", Nil)), ",", Nil));
            IsType(t) && !HasJson(t) && NamesJson(Print(t))
  {
    var u, t := Named("UInt8", Nil), Named("Tuple", Cons(Element("json", Named("UInt8", Nil)), ",", Nil));
    assert IsIdent("Tuple") && IsIdent("json") && IsIdent("UInt8");
    assert Begins("json", "json") by {
      assert "json"[1..] == "son" && "son"[1..] == "on" && "on"[1..] == "n" && "n"[1..] == "";
    }
    assert IsJson("json") && !IsJson("Tuple") && !IsJson("UInt8");
    TextNamesJson(t);
  }

  // ----- the settings of a table

  function Prints(types: seq<Type>): (r: seq<string>)
    ensures |r| == |types| && forall i :: 0 <= i < |types| ==> r[i] == Print(types[i])
  {
    if types == [] then [] else [Print(types[0])] + Prints(types[1..])
  }

  // `JSON` with a limit on its paths; any other type is left alone.
  function WithMaxDynamicPaths(chType: string, paths: Option<string>): string {
    if paths.None? || chType != "JSON" then chType else "JSON(max_dynamic_paths=" + paths.value + ")"
  }

  function WithPaths(t: Type, paths: Option<string>): Type {
    if paths.None? || t != Named("JSON", Nil) then t
      else Named("JSON", Cons(Param("max_dynamic_paths", "=", paths.value), ",", Nil))
  }

  lemma PathsPrint(t: Type, paths: Option<string>)
    ensures Print(WithPaths(t, paths)) == WithMaxDynamicPaths(Print(t), paths)
  {
    if t.args.Cons? {
      assert Print(t)[|t.name|] == '(';
      assert Print(t) == "JSON" ==> '(' in "JSON";
    } else if paths.Some? && t.name == "JSON" {
      var p := Param("max_dynamic_paths", "=", paths.value);
      var args := Cons(p, ",", Nil);
      assert PrintArgs(args) == PrintArg(p) + "" == PrintArg(p) == "max_dynamic_paths" + ("=" + paths.value);
      assert Print(Named("JSON", args)) == "JSON" + ("(" + (PrintArgs(args) + ")"));
      Limit(paths.value);
    }
  }

  lemma Limit(n: string)
    ensures "JSON" + ("(" + ("max_dynamic_paths" + ("=" + n) + ")")) == "JSON(max_dynamic_paths=" + n + ")"
  {
    assert "JSON(max_dynamic_paths=" == "JSON" + ("(" + ("max_dynamic_paths" + "="));
  }

  // A limit on the paths neither makes a JSON column nor hides one.
  lemma PathsKeepJson(t: Type, paths: Option<string>)
    requires IsType(t) && (paths.Some? ==> Digits(paths.value))
    ensures NamesJson(WithMaxDynamicPaths(Print(t), paths)) == NamesJson(Print(t))
  {
    PathsPrint(t, paths);
    var u := WithPaths(t, paths);
    assert IsIdent("max_dynamic_paths");
    assert IsType(u);
    TextNamesJson(t);
    TextNamesJson(u);
    assert !IsJson("max_dynamic_paths");
  }

  // A table is given JSON settings exactly when one of its columns is or wraps JSON, where no element is called so.
  lemma SettingsFollowTypes(types: seq<Type>)
    requires forall t <- types :: IsType(t) && !CallsJson(t)
    ensures (exists t <- Prints(types) :: NamesJson(t)) <==> (exists t <- types :: HasJson(t))
  {
    hide IsType, CallsJson, HasJson, NamesJson, Print;
    forall i | 0 <= i < |types| ensures NamesJson(Prints(types)[i]) == HasJson(types[i]) {
      TextNamesJson(types[i]);
    }
    if t :| t in types && HasJson(t) {
      var i :| 0 <= i < |types| && types[i] == t;
      assert Prints(types)[i] in Prints(types);
    }
  }
}
