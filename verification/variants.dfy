/** The variant-block file: a marker loop that cuts lines into bodies, and the printer it undoes. */
module Variants {
  import opened Text
  import opened Words
  import opened Order
  import opened Wrappers

  datatype Result<T> = Ok(value: T) | Err(error: Error)
  datatype Error =
    | TextBeforeMarker
    | Twice(block: string, variant: string)
    | NoMarkers
    | MissingVariants(block: string, variants: set<string>)

  datatype Mark = Mark(block: string, variant: string)
  type Blocks = map<string, map<string, string>>

  // ----- marker lines: `^--\s*@block\s+(name)\s+(name)\s*$`, on the stripped line

  predicate IsNameStart(c: char) { 'a' <= c <= 'z' }
  predicate IsNameChar(c: char) { 'a' <= c <= 'z' || '0' <= c <= '9' || c == '_' }

  function NameLen(t: string): (n: nat)
    ensures n <= |t|
  {
    if t == "" || !IsNameChar(t[0]) then 0 else 1 + NameLen(t[1..])
  }

  // The name at the head of `t`, after at least one space, and what follows it.
  function SpacedName(t: string): Option<(string, string)> {
    var r := LTrim(t);
    if t == "" || !IsSpace(t[0]) || r == "" || !IsNameStart(r[0]) then None
    else Some((r[..NameLen(r)], r[NameLen(r)..]))
  }

  function Marker(line: string): Option<Mark> {
    var t := Trim(line);
    if !("--" <= t) then None
    else
      var r := LTrim(t[2..]);
      if !("@block" <= r) then None
      else match SpacedName(r[6..])
        case None => None
        case Some((block, rest)) =>
          match SpacedName(rest)
          case None => None
          case Some((variant, end)) => if Trim(end) == "" then Some(Mark(block, variant)) else None
  }

  // ----- bodies

  predicate IsComment(line: string) { "--" <= LTrim(line) }

  function Kept(lines: seq<string>): seq<string> {
    if lines == [] then []
    else if IsComment(lines[0]) then Kept(lines[1..])
    else [RTrim(lines[0])] + Kept(lines[1..])
  }

  function Body(lines: seq<string>): string {
    Trim(JoinLines(Kept(lines)))
  }

  // ----- the declarative reading

  datatype Section = Section(mark: Mark, lines: seq<string>)

  // The lines up to the first marker.
  function Preface(lines: seq<string>): seq<string> {
    if lines == [] || Marker(lines[0]).Some? then [] else [lines[0]] + Preface(lines[1..])
  }

  // Each marker with the lines between it and the next.
  function Sections(lines: seq<string>): seq<Section> {
    if lines == [] then []
    else match Marker(lines[0])
      case None => Sections(lines[1..])
      case Some(m) => [Section(m, Preface(lines[1..]))] + Sections(lines[1..])
  }

  function Put(blocks: Blocks, m: Mark, body: string): Blocks {
    blocks[m.block := (if m.block in blocks then blocks[m.block] else map[])[m.variant := body]]
  }

  predicate Holds(blocks: Blocks, m: Mark) {
    m.block in blocks && m.variant in blocks[m.block]
  }

  // The sections filed one after another; the first repeat is an error.
  function Filed(blocks: Blocks, sections: seq<Section>): Result<Blocks>
    decreases |sections|
  {
    if sections == [] then Ok(blocks)
    else
      var m := sections[0].mark;
      if Holds(blocks, m) then Err(Twice(m.block, m.variant))
      else Filed(Put(blocks, m, Body(sections[0].lines)), sections[1..])
  }

  function Variants(blocks: Blocks): set<string> {
    set b, v | b in blocks && v in blocks[b] :: v
  }

  predicate Rectangular(blocks: Blocks) {
    forall b <- blocks :: blocks[b].Keys == Variants(blocks)
  }

  // `e` names the first block, by name, that leaves variants out, and the ones it leaves out.
  ghost predicate IsShortBlock(blocks: Blocks, e: Error) {
    && e.MissingVariants? && e.block in blocks
    && e.variants == Variants(blocks) - blocks[e.block].Keys && e.variants != {}
    && forall b :: b in blocks && Less(b, e.block) ==> blocks[b].Keys == Variants(blocks)
  }

  // What loading a file's lines comes to.
  ghost predicate IsLoad(lines: seq<string>, r: Result<Blocks>) {
    if Body(Preface(lines)) != "" then r == Err(TextBeforeMarker)
    else
      var filed := Filed(map[], Sections(lines));
      if filed.Err? then r == filed
      else if filed.value == map[] then r == Err(NoMarkers)
      else if Rectangular(filed.value) then r == filed
      else r.Err? && IsShortBlock(filed.value, r.error)
  }

  // ----- the loop

  class Loader {
    var blocks: Blocks
    var current: Option<Mark>
    var pending: seq<string>

    constructor ()
      ensures blocks == map[] && current == None && pending == []
    {
      blocks, current, pending := map[], None, [];
    }

    // The closure that files the lines read since the last marker.
    method Close() returns (error: Option<Error>)
      modifies this`blocks
      ensures current.None? ==>
                blocks == old(blocks) && error == if Body(pending) != "" then Some(TextBeforeMarker) else None
      ensures current.Some? ==>
                var m := current.value;
                if Holds(old(blocks), m) then error == Some(Twice(m.block, m.variant))
                else error == None && blocks == Put(old(blocks), m, Body(pending))
    {
      if current.None? {
        if Body(pending) != "" {
          return Some(TextBeforeMarker);
        }
        return None;
      }
      var m := current.value;
      if m.block !in blocks {
        blocks := blocks[m.block := map[]];
      }
      if m.variant in blocks[m.block] {
        return Some(Twice(m.block, m.variant));
      }
      blocks := blocks[m.block := blocks[m.block][m.variant := Body(pending)]];
      error := None;
    }
  }

  // What is left to do, as a result: the open section takes the lines up to the next marker.
  function Remaining(blocks: Blocks, current: Option<Mark>, pending: seq<string>, lines: seq<string>): Result<Blocks> {
    var open := pending + Preface(lines);
    match current
    case None => if Body(open) != "" then Err(TextBeforeMarker) else Filed(blocks, Sections(lines))
    case Some(m) => Filed(blocks, [Section(m, open)] + Sections(lines))
  }

  method LoadVariantBlocks(lines: seq<string>) returns (r: Result<Blocks>)
    ensures IsLoad(lines, r)
  {
    hide *;
    var loader := new Loader();
    var i := 0;
    assert lines[0..] == lines;
    while i < |lines|
      invariant 0 <= i <= |lines|
      invariant Remaining(loader.blocks, loader.current, loader.pending, lines[i..])
          == Remaining(map[], None, [], lines)
    {
      var marker := Marker(lines[i]);
      LineStep(loader.blocks, loader.current, loader.pending, lines, i);
      if marker.None? {
        loader.pending := loader.pending + [lines[i]];
        i := i + 1;
        continue;
      }
      var error := loader.Close();
      if error.Some? {
        LoadFails(lines, error.value);
        return Err(error.value);
      }
      loader.current := marker;
      loader.pending := [];
      i := i + 1;
    }
    LastStep(loader.blocks, loader.current, loader.pending, lines);
    var error := loader.Close();
    if error.Some? {
      LoadFails(lines, error.value);
      return Err(error.value);
    }
    LoadGoesOn(lines, loader.blocks);
    if loader.blocks == map[] {
      return Err(NoMarkers);
    }
    error := CheckRectangular(loader.blocks);
    if error.Some? {
      return Err(error.value);
    }
    r := Ok(loader.blocks);
  }

  method CheckRectangular(blocks: Blocks) returns (error: Option<Error>)
    ensures if Rectangular(blocks) then error == None else error.Some? && IsShortBlock(blocks, error.value)
  {
    hide Variants, Less;
    var every := Variants(blocks);
    var todo := blocks.Keys;
    while todo != {}
      invariant todo <= blocks.Keys
      invariant forall b :: b in blocks && b !in todo ==> blocks[b].Keys == every
      decreases todo
    {
      ghost var least := Min(todo);
      assert least in todo && forall b :: b in todo ==> b == least || Less(least, b);
      var block :| block in todo && forall b :: b in todo ==> b == block || Less(block, b);
      var missing := every - blocks[block].Keys;
      VariantsHold(blocks, block);
      if missing != {} {
        forall b | b in blocks && Less(b, block) ensures blocks[b].Keys == every {
          LessTotal(b, block);
        }
        assert blocks[block].Keys != every;
        return Some(MissingVariants(block, missing));
      }
      SameWhenNoneMissing(every, blocks[block].Keys);
      todo := todo - {block};
    }
    error := None;
  }

  lemma SameWhenNoneMissing(every: set<string>, have: set<string>)
    requires every - have == {} && have <= every
    ensures have == every
  {
    assert forall v :: v in every ==> v in have || v in every - have;
  }

  lemma VariantsHold(blocks: Blocks, b: string)
    requires b in blocks
    ensures blocks[b].Keys <= Variants(blocks)
  {
    assert forall v :: v in blocks[b].Keys ==> v in Variants(blocks);
  }

  lemma LoadFails(lines: seq<string>, e: Error)
    requires Remaining(map[], None, [], lines) == Err(e)
    ensures IsLoad(lines, Err(e))
  {
    assert [] + Preface(lines) == Preface(lines);
  }

  lemma LoadGoesOn(lines: seq<string>, blocks: Blocks)
    requires Remaining(map[], None, [], lines) == Ok(blocks)
    ensures blocks == map[] ==> IsLoad(lines, Err(NoMarkers))
    ensures blocks != map[] && Rectangular(blocks) ==> IsLoad(lines, Ok(blocks))
    ensures forall e :: blocks != map[] && !Rectangular(blocks) && IsShortBlock(blocks, e) ==> IsLoad(lines, Err(e))
  {
    assert [] + Preface(lines) == Preface(lines);
    hide Body, Preface, Filed, Sections, Rectangular, IsShortBlock;
  }

  lemma LineStep(blocks: Blocks, current: Option<Mark>, pending: seq<string>, lines: seq<string>, i: nat)
    requires i < |lines|
    ensures var whole := Remaining(blocks, current, pending, lines[i..]);
            match Marker(lines[i])
            case None => whole == Remaining(blocks, current, pending + [lines[i]], lines[i + 1..])
            case Some(m) =>
              match current
              case None => whole == if Body(pending) != "" then Err(TextBeforeMarker)
                else Remaining(blocks, Some(m), [], lines[i + 1..])
              case Some(c) =>
                whole == if Holds(blocks, c) then Err(Twice(c.block, c.variant))
                         else Remaining(Put(blocks, c, Body(pending)), Some(m), [], lines[i + 1..])
  {
    hide Body, Marker, Holds, Put;
    var ls, rest := lines[i..], lines[i + 1..];
    assert ls[0] == lines[i] && ls[1..] == rest;
    match Marker(lines[i])
    case None =>
      assert pending + ([lines[i]] + Preface(rest)) == pending + [lines[i]] + Preface(rest);
    case Some(m) =>
      assert pending + [] == pending && [] + Preface(rest) == Preface(rest);
      match current {
        case None =>
        case Some(c) =>
          assert ([Section(c, pending)] + Sections(ls))[1..] == Sections(ls);
      }
  }

  lemma LastStep(blocks: Blocks, current: Option<Mark>, pending: seq<string>, lines: seq<string>)
    ensures Remaining(blocks, current, pending, lines[|lines|..]) ==
            match current
            case None => if Body(pending) != "" then Err(TextBeforeMarker) else Ok(blocks)
            case Some(c) => if Holds(blocks, c) then Err(Twice(c.block, c.variant))
              else Ok(Put(blocks, c, Body(pending)))
  {
    hide Body, Marker, Holds, Put;
    assert lines[|lines|..] == [] && Preface([]) == [] && Sections([]) == [];
    assert pending + [] == pending;
    match current {
      case None =>
      case Some(c) =>
        var one := [Section(c, pending)];
        assert one + [] == one && one[1..] == [];
        assert Remaining(blocks, current, pending, []) == Filed(blocks, one);
    }
  }

  // ----- nothing is lost

  function SplitNewlines(t: string): (r: seq<string>)
    ensures r != []
  {
    if t == "" then [""]
    else
      var rest := SplitNewlines(t[1..]);
      if t[0] == '\n' then [""] + rest else [[t[0]] + rest[0]] + rest[1..]
  }

  predicate OneLine(l: string) { '\n' !in l }

  // The lines that say something, without the whitespace around them.
  function Content(lines: seq<string>): seq<string> {
    if lines == [] then []
    else (if IsComment(lines[0]) || Trim(lines[0]) == "" then [] else [Trim(lines[0])]) + Content(lines[1..])
  }

  function BodyContent(sections: seq<Section>): seq<string> {
    if sections == [] then [] else Content(SplitNewlines(Body(sections[0].lines))) + BodyContent(sections[1..])
  }

  lemma {:induction false} ContentConcat(a: seq<string>, b: seq<string>)
    ensures Content(a + b) == Content(a) + Content(b)
  {
    hide IsComment;
    if a == [] {
      assert a + b == b;
    } else {
      assert (a + b)[1..] == a[1..] + b;
      ContentConcat(a[1..], b);
    }
  }

  lemma {:induction false} SplitFirst(a: string, rest: string)
    requires OneLine(a)
    ensures SplitNewlines(a + "\n" + rest) == [a] + SplitNewlines(rest) && SplitNewlines(a) == [a]
  {
    if a == "" {
      assert a + "\n" + rest == "\n" + rest;
      assert ("\n" + rest)[1..] == rest;
    } else {
      assert (a + "\n" + rest)[1..] == a[1..] + "\n" + rest;
      SplitFirst(a[1..], rest);
      assert [a[0]] + a[1..] == a;
    }
  }

  lemma {:induction false} SplitJoined(lines: seq<string>)
    requires lines != [] && forall i :: 0 <= i < |lines| ==> OneLine(lines[i])
    ensures SplitNewlines(JoinLines(lines)) == lines
  {
    if |lines| == 1 {
      SplitFirst(lines[0], "");
    } else {
      SplitJoined(lines[1..]);
      SplitFirst(lines[0], JoinLines(lines[1..]));
    }
  }

  lemma {:induction false} JoinSplit(t: string)
    ensures JoinLines(SplitNewlines(t)) == t
  {
    if t != "" {
      JoinSplit(t[1..]);
      var rest := SplitNewlines(t[1..]);
      if t[0] == '\n' {
        assert ([""] + rest)[1..] == rest;
        assert "" + "\n" + t[1..] == t;
      } else {
        var ls := [[t[0]] + rest[0]] + rest[1..];
        assert ls[1..] == rest[1..];
        if |rest| > 1 {
          assert [t[0]] + rest[0] + "\n" + JoinLines(rest[1..]) == [t[0]] + (rest[0] + "\n" + JoinLines(rest[1..]));
        }
      }
    }
  }

  lemma TrimSpaceFirst(c: char, l: string)
    requires IsSpace(c)
    ensures LTrim([c] + l) == LTrim(l) && Trim([c] + l) == Trim(l) && IsComment([c] + l) == IsComment(l)
  {
    assert ([c] + l)[1..] == l;
  }

  lemma {:induction false} LTrimLast(l: string, c: char)
    requires IsSpace(c)
    ensures LTrim(l + [c]) == (if LTrim(l) == "" then "" else LTrim(l) + [c])
  {
    if l == "" {
      assert l + [c] == [c] && [c][1..] == "";
    } else if IsSpace(l[0]) {
      assert (l + [c])[1..] == l[1..] + [c];
      LTrimLast(l[1..], c);
    }
  }

  lemma TrimSpaceLast(l: string, c: char)
    requires IsSpace(c)
    ensures Trim(l + [c]) == Trim(l) && IsComment(l + [c]) == IsComment(l)
  {
    LTrimLast(l, c);
    var t := LTrim(l);
    assert (t + [c])[..|t|] == t;
    assert |t| >= 2 ==> (t + [c])[..2] == t[..2];
  }

  lemma {:induction false} ContentLTrim(t: string)
    ensures Content(SplitNewlines(LTrim(t))) == Content(SplitNewlines(t))
  {
    if t != "" && IsSpace(t[0]) {
      ContentLTrim(t[1..]);
      var rest := SplitNewlines(t[1..]);
      if t[0] == '\n' {
        assert ([""] + rest)[1..] == rest;
        assert Trim("") == "";
      } else {
        var ls := [[t[0]] + rest[0]] + rest[1..];
        TrimSpaceFirst(t[0], rest[0]);
        assert ls[1..] == rest[1..];
      }
    }
  }

  lemma {:induction false} SplitLast(t: string, c: char)
    ensures var ls := SplitNewlines(t);
            SplitNewlines(t + [c]) == if c == '\n' then ls + [""] else ls[..|ls| - 1] + [ls[|ls| - 1] + [c]]
  {
    if t == "" {
      assert t + [c] == [c] && [c][1..] == "";
      assert SplitNewlines("") == [""];
      assert [c] + "" == [c] && "" + [c] == [c];
    } else {
      assert (t + [c])[1..] == t[1..] + [c];
      SplitLast(t[1..], c);
      SplitLastStep(t[0], SplitNewlines(t[1..]), c);
    }
  }

  lemma SplitLastStep(d: char, rest: seq<string>, c: char)
    requires rest != []
    ensures var next := if c == '\n' then rest + [""] else rest[..|rest| - 1] + [rest[|rest| - 1] + [c]];
            var ls := if d == '\n' then [""] + rest else [[d] + rest[0]] + rest[1..];
            (if d == '\n' then [""] + next else [[d] + next[0]] + next[1..])
            == if c == '\n' then ls + [""] else ls[..|ls| - 1] + [ls[|ls| - 1] + [c]]
  {
    if |rest| == 1 {
      assert [d] + (rest[0] + [c]) == [d] + rest[0] + [c];
    }
  }

  lemma {:induction false} ContentRTrim(t: string)
    ensures Content(SplitNewlines(RTrim(t))) == Content(SplitNewlines(t))
  {
    hide Content, SplitNewlines, IsSpace;
    if t != "" && IsSpace(t[|t| - 1]) {
      var u, c := t[..|t| - 1], t[|t| - 1];
      ContentRTrim(u);
      assert t == u + [c];
      SplitLast(u, c);
      ContentLast(SplitNewlines(u), c);
    }
  }

  lemma ContentLast(ls: seq<string>, c: char)
    requires ls != [] && IsSpace(c)
    ensures Content(ls + [""]) == Content(ls)
    ensures Content(ls[..|ls| - 1] + [ls[|ls| - 1] + [c]]) == Content(ls)
  {
    var init, l := ls[..|ls| - 1], ls[|ls| - 1];
    assert ls == init + [l];
    TrimSpaceLast(l, c);
    ContentConcat(ls, [""]);
    ContentConcat(init, [l]);
    ContentConcat(init, [l + [c]]);
    hide IsComment, Trim;
    assert Content([""]) == [] by { EmptyContent(); }
    assert Content([l + [c]]) == Content([l]);
  }

  lemma EmptyContent()
    ensures Content([""]) == []
  {
    assert Trim("") == "" && [""][1..] == [];
  }

  lemma {:induction false} RTrimLine(l: string)
    ensures Trim(RTrim(l)) == Trim(l) && IsComment(RTrim(l)) == IsComment(l)
  {
    if l != "" && IsSpace(l[|l| - 1]) {
      var u, c := l[..|l| - 1], l[|l| - 1];
      assert l == u + [c];
      TrimSpaceLast(u, c);
      RTrimLine(u);
    }
  }

  lemma {:induction false} ContentKept(lines: seq<string>)
    requires forall i :: 0 <= i < |lines| ==> OneLine(lines[i])
    ensures Content(Kept(lines)) == Content(lines)
    ensures forall i :: 0 <= i < |Kept(lines)| ==> OneLine(Kept(lines)[i])
  {
    if lines != [] {
      ContentKept(lines[1..]);
      RTrimLine(lines[0]);
      hide IsComment, Trim;
      if !IsComment(lines[0]) {
        assert Kept(lines)[1..] == Kept(lines[1..]);
      }
    }
  }

  // A body says what its lines said.
  lemma BodySaysItsLines(lines: seq<string>)
    requires forall i :: 0 <= i < |lines| ==> OneLine(lines[i])
    ensures Content(SplitNewlines(Body(lines))) == Content(lines)
  {
    var kept := Kept(lines);
    ContentKept(lines);
    var t := JoinLines(kept);
    ContentLTrim(t);
    ContentRTrim(LTrim(t));
    hide IsComment, LTrim, RTrim, Kept;
    if kept == [] {
      assert SplitNewlines("") == [""];
      EmptyContent();
    } else {
      SplitJoined(kept);
    }
  }

  lemma MarkerIsComment(l: string)
    requires Marker(l).Some?
    ensures IsComment(l)
  {
  }

  lemma ContentAfterMarker(l: string, rest: seq<string>)
    requires Marker(l).Some?
    requires forall i :: 0 <= i < |Preface(rest)| ==> OneLine(Preface(rest)[i])
    requires Content(rest) == Content(Preface(rest)) + BodyContent(Sections(rest))
    ensures Content([l] + rest) == BodyContent(Sections([l] + rest))
  {
    MarkerIsComment(l);
    BodySaysItsLines(Preface(rest));
    hide Marker, IsComment, Body, Trim, Preface, SplitNewlines;
    assert ([l] + rest)[1..] == rest;
    var s := Section(Marker(l).value, Preface(rest));
    assert ([s] + Sections(rest))[1..] == Sections(rest);
  }

  lemma ContentAfterPlain(l: string, rest: seq<string>)
    requires Marker(l).None?
    requires Content(rest) == Content(Preface(rest)) + BodyContent(Sections(rest))
    ensures Content([l] + rest) == Content([l] + Preface(rest)) + BodyContent(Sections(rest))
    ensures Sections([l] + rest) == Sections(rest) && Preface([l] + rest) == [l] + Preface(rest)
  {
    hide Marker, Body, BodyContent, Content;
    assert ([l] + rest)[1..] == rest;
    ContentConcat([l], rest);
    ContentConcat([l], Preface(rest));
  }

  lemma {:induction false} ContentSections(lines: seq<string>)
    requires forall i :: 0 <= i < |lines| ==> OneLine(lines[i])
    ensures Content(lines) == Content(Preface(lines)) + BodyContent(Sections(lines))
    ensures forall i :: 0 <= i < |Preface(lines)| ==> OneLine(Preface(lines)[i])
  {
    hide Marker, Body, BodyContent, OneLine;
    if lines == [] {
      assert Sections(lines) == [] && BodyContent([]) == [] by { NoContent(); }
    } else {
      var l, rest := lines[0], lines[1..];
      assert lines == [l] + rest;
      ContentSections(rest);
      if Marker(l).Some? {
        ContentAfterMarker(l, rest);
      } else {
        ContentAfterPlain(l, rest);
      }
    }
  }

  lemma NoContent()
    ensures BodyContent([]) == []
  {
  }

  // A file that is accepted says nothing before its first marker.
  lemma ContentIsInBodies(lines: seq<string>)
    requires forall i :: 0 <= i < |lines| ==> OneLine(lines[i])
    requires Body(Preface(lines)) == ""
    ensures Content(lines) == BodyContent(Sections(lines))
  {
    ContentSections(lines);
    hide Content, Body, Sections;
    BodySaysItsLines(Preface(lines));
    assert Content(SplitNewlines("")) == [] by {
      assert SplitNewlines("") == [""];
      EmptyContent();
    }
  }

  // ----- printing, and reading the print back

  datatype Entry = Entry(mark: Mark, body: string)

  predicate IsName(n: string) {
    n != "" && IsNameStart(n[0]) && forall i :: 0 <= i < |n| ==> IsNameChar(n[i])
  }

  // A body in the form that loading leaves it in.
  predicate Canonical(body: string) {
    Trim(body) == body && forall l <- SplitNewlines(body) :: !IsComment(l) && RTrim(l) == l
  }

  predicate Printable(e: Entry) {
    IsName(e.mark.block) && IsName(e.mark.variant) && Canonical(e.body)
  }

  function MarkerLine(m: Mark): string {
    "-- @block " + m.block + " " + m.variant
  }

  function Print(entries: seq<Entry>): seq<string> {
    if entries == [] then [] else [MarkerLine(entries[0].mark)] + SplitNewlines(entries[0].body) + Print(entries[1..])
  }

  // `entries` lists the blocks: every block and variant once, with its body.
  ghost predicate Lists(entries: seq<Entry>, blocks: Blocks) {
    && (forall e <- entries :: Holds(blocks, e.mark) && blocks[e.mark.block][e.mark.variant] == e.body)
    && (forall i, j :: 0 <= i < j < |entries| ==> entries[i].mark != entries[j].mark)
    && (forall b <- blocks :: blocks[b] != map[])
    && (forall b, v :: Holds(blocks, Mark(b, v)) ==> Listed(entries, Mark(b, v)))
  }

  ghost predicate Listed(entries: seq<Entry>, m: Mark) {
    exists e <- entries :: e.mark == m
  }

  lemma {:induction false} NameLenIs(n: string, rest: string)
    requires forall i :: 0 <= i < |n| ==> IsNameChar(n[i])
    requires rest == "" || !IsNameChar(rest[0])
    ensures NameLen(n + rest) == |n|
  {
    if n == "" {
      assert n + rest == rest;
    } else {
      assert (n + rest)[1..] == n[1..] + rest;
      NameLenIs(n[1..], rest);
    }
  }

  lemma SpacedNameIs(n: string, rest: string)
    requires IsName(n) && (rest == "" || !IsNameChar(rest[0]))
    ensures SpacedName(" " + n + rest) == Some((n, rest))
  {
    var t, r := " " + n + rest, n + rest;
    assert t[1..] == r && r[0] == n[0];
    assert LTrim(t) == r;
    NameLenIs(n, rest);
    assert r[..|n|] == n && r[|n|..] == rest;
  }

  lemma MarkerOf(tail: string, m: Mark, rest: string)
    requires SpacedName(tail) == Some((m.block, rest)) && SpacedName(rest) == Some((m.variant, ""))
    requires var line := "--" + (" " + ("@block" + tail)); Trim(line) == line
    ensures Marker("--" + (" " + ("@block" + tail))) == Some(m)
  {
    MarkerTail(tail);
    TrimEmpty();
    hide LTrim, Trim, SpacedName;
    var r := " " + ("@block" + tail);
    assert ("--" + r)[2..] == r && "--" <= "--" + r;
  }

  lemma TrimNothing(a: string, n: string)
    requires a != "" && !IsSpace(a[0]) && IsName(n)
    ensures Trim(a + n) == a + n
  {
    var t := a + n;
    assert t[0] == a[0];
    assert t[|t| - 1] == n[|n| - 1] && IsNameChar(n[|n| - 1]);
  }

  function MarkerRest(m: Mark): string { " " + m.variant + "" }

  lemma MarkerLineIs(m: Mark)
    ensures MarkerLine(m) == "--" + (" " + ("@block" + (" " + m.block + MarkerRest(m))))
    ensures MarkerLine(m) == "-- @block " + m.block + " " + m.variant
    ensures MarkerLine(m) == ("-- @block " + m.block + " ") + m.variant
  {
  }

  lemma MarkerLineReads(m: Mark)
    requires IsName(m.block) && IsName(m.variant)
    ensures Marker(MarkerLine(m)) == Some(m)
  {
    var rest := MarkerRest(m);
    SpacedNameIs(m.block, rest);
    SpacedNameIs(m.variant, "");
    TrimNothing("-- @block " + m.block + " ", m.variant);
    hide *;
    MarkerLineIs(m);
    MarkerOf(" " + m.block + rest, m, rest);
  }

  lemma MarkerTail(tail: string)
    ensures LTrim(" " + ("@block" + tail)) == "@block" + tail
    ensures "@block" <= "@block" + tail && ("@block" + tail)[6..] == tail
  {
    assert (" " + ("@block" + tail))[1..] == "@block" + tail;
  }

  lemma TrimEmpty()
    ensures Trim("") == ""
  {
  }

  lemma {:induction false} PlainLines(ls: seq<string>, rest: seq<string>)
    requires forall l <- ls :: Marker(l).None?
    requires rest == [] || Marker(rest[0]).Some?
    ensures Preface(ls + rest) == ls && Sections(ls + rest) == Sections(rest)
  {
    hide Marker;
    if ls == [] {
      assert ls + rest == rest;
    } else {
      assert (ls + rest)[1..] == ls[1..] + rest && (ls + rest)[0] == ls[0];
      PlainLines(ls[1..], rest);
    }
  }

  function Printed(entries: seq<Entry>): seq<Section> {
    if entries == [] then [] else [Section(entries[0].mark, SplitNewlines(entries[0].body))] + Printed(entries[1..])
  }

  lemma {:induction false} PrintedSections(entries: seq<Entry>)
    requires forall e <- entries :: Printable(e)
    ensures Sections(Print(entries)) == Printed(entries) && Preface(Print(entries)) == []
    ensures entries != [] ==> Print(entries) != [] && Marker(Print(entries)[0]).Some?
  {
    hide Marker, SplitNewlines, MarkerLine, IsName, IsComment, RTrim, Trim;
    if entries != [] {
      var e, rest := entries[0], Print(entries[1..]);
      PrintedSections(entries[1..]);
      var ls := SplitNewlines(e.body);
      assert Printable(e);
      MarkerLineReads(e.mark);
      forall l | l in ls ensures Marker(l).None? {
        if Marker(l).Some? { MarkerIsComment(l); }
      }
      PlainLines(ls, rest);
      var all := Print(entries);
      assert all == [MarkerLine(e.mark)] + (ls + rest);
      assert all[0] == MarkerLine(e.mark) && all[1..] == ls + rest;
    }
  }

  lemma {:induction false} KeptAll(ls: seq<string>)
    requires forall l <- ls :: !IsComment(l) && RTrim(l) == l
    ensures Kept(ls) == ls
  {
    hide IsComment, RTrim;
    if ls != [] {
      KeptAll(ls[1..]);
    }
  }

  lemma CanonicalBody(body: string)
    requires Canonical(body)
    ensures Body(SplitNewlines(body)) == body
  {
    hide IsComment, RTrim, Trim, SplitNewlines;
    KeptAll(SplitNewlines(body));
    JoinSplit(body);
  }

  // Everything filed so far is in `whole`.
  ghost predicate Part(blocks: Blocks, whole: Blocks) {
    && (forall b <- blocks :: b in whole)
    && forall b, v :: Holds(blocks, Mark(b, v)) ==> Holds(whole, Mark(b, v)) && blocks[b][v] == whole[b][v]
  }

  lemma PutIsPart(blocks: Blocks, whole: Blocks, m: Mark)
    requires Part(blocks, whole) && Holds(whole, m)
    ensures Part(Put(blocks, m, whole[m.block][m.variant]), whole)
    ensures forall b, v ::
              Holds(Put(blocks, m, whole[m.block][m.variant]), Mark(b, v))
              <==> Holds(blocks, Mark(b, v)) || m == Mark(b, v)
  {
  }

  lemma {:induction false} FiledPart(blocks: Blocks, entries: seq<Entry>, whole: Blocks)
    requires Part(blocks, whole)
    requires forall e <- entries ::
               Printable(e) && Holds(whole, e.mark) && whole[e.mark.block][e.mark.variant] == e.body
    requires forall i, j :: 0 <= i < j < |entries| ==> entries[i].mark != entries[j].mark
    requires forall e <- entries :: !Holds(blocks, e.mark)
    decreases |entries|
    ensures var filed := Filed(blocks, Printed(entries));
            filed.Ok? && Part(filed.value, whole)
            && forall b, v ::
                 Holds(filed.value, Mark(b, v)) <==> Holds(blocks, Mark(b, v)) || Listed(entries, Mark(b, v))
  {
    hide Holds, Part, Put, Body, IsName, Canonical, SplitNewlines;
    if entries != [] {
      var e, rest := entries[0], entries[1..];
      CanonicalBody(e.body);
      PutIsPart(blocks, whole, e.mark);
      var next := Put(blocks, e.mark, e.body);
      forall f | f in rest ensures !Holds(next, f.mark) {
        var i :| 0 <= i < |rest| && rest[i] == f;
        assert entries[0].mark != entries[i + 1].mark;
        assert Mark(f.mark.block, f.mark.variant) == f.mark;
      }
      FiledPart(next, rest, whole);
      assert Printed(entries)[1..] == Printed(rest);
      assert entries == [e] + rest;
      assert Filed(blocks, Printed(entries)) == Filed(next, Printed(rest));
    }
  }

  lemma PartIsWholeAt(part: Blocks, whole: Blocks, b: string)
    requires Part(part, whole) && b in whole && whole[b] != map[]
    requires forall v :: v in whole[b] ==> Holds(part, Mark(b, v))
    ensures b in part && part[b] == whole[b]
  {
    assert whole[b].Keys != {};
    var v :| v in whole[b];
    assert Holds(part, Mark(b, v));
    forall w | w in part[b] ensures w in whole[b] && part[b][w] == whole[b][w] {
      assert Holds(part, Mark(b, w));
    }
    assert part[b].Keys == whole[b].Keys;
  }

  lemma PartIsWhole(part: Blocks, whole: Blocks)
    requires Part(part, whole)
    requires forall b <- whole :: whole[b] != map[]
    requires forall b, v :: Holds(whole, Mark(b, v)) ==> Holds(part, Mark(b, v))
    ensures part == whole
  {
    assert part.Keys <= whole.Keys;
    forall b | b in whole ensures b in part && part[b] == whole[b] {
      forall v | v in whole[b] ensures Holds(part, Mark(b, v)) {
        assert Holds(whole, Mark(b, v));
      }
      hide Part, Holds;
      PartIsWholeAt(part, whole, b);
    }
    hide Part, Holds;
    assert part.Keys == whole.Keys;
  }

  lemma LoadsAs(lines: seq<string>, blocks: Blocks, r: Result<Blocks>)
    requires Preface(lines) == []
    requires Filed(map[], Sections(lines)) == Ok(blocks) && blocks != map[] && Rectangular(blocks)
    ensures IsLoad(lines, r) <==> r == Ok(blocks)
  {
    assert Body([]) == "" by { TrimEmpty(); }
    hide Rectangular, Body, Filed, Sections, Preface, IsShortBlock;
  }

  lemma ListedAll(entries: seq<Entry>, blocks: Blocks)
    requires Lists(entries, blocks)
    requires forall e <- entries :: Printable(e)
    ensures Filed(map[], Printed(entries)) == Ok(blocks)
  {
    hide Printable, Printed, Filed, Listed;
    assert Part(map[], blocks);
    FiledPart(map[], entries, blocks);
    hide Part, Holds;
    PartIsWhole(Filed(map[], Printed(entries)).value, blocks);
  }

  // Loading what was printed, in any order, gives back the blocks.
  lemma PrintedLoads(entries: seq<Entry>, blocks: Blocks, r: Result<Blocks>)
    requires Lists(entries, blocks) && blocks != map[] && Rectangular(blocks)
    requires forall e <- entries :: Printable(e)
    ensures IsLoad(Print(entries), r) <==> r == Ok(blocks)
  {
    hide *;
    PrintedSections(entries);
    ListedAll(entries, blocks);
    LoadsAs(Print(entries), blocks, r);
  }

  // ----- what an accepted file holds is printable

  predicate Clean(t: string) {
    forall l <- SplitNewlines(t) :: !IsComment(l) && RTrim(l) == l
  }

  lemma {:induction false} CleanLTrim(t: string)
    requires Clean(t)
    ensures Clean(LTrim(t))
  {
    if t != "" && IsSpace(t[0]) {
      var ls, rest := SplitNewlines(t), SplitNewlines(t[1..]);
      forall l | l in rest ensures !IsComment(l) && RTrim(l) == l {
        CleanLine(t, rest, l);
      }
      CleanLTrim(t[1..]);
    }
  }

  lemma CleanLine(t: string, rest: seq<string>, l: string)
    requires Clean(t) && t != "" && IsSpace(t[0]) && rest == SplitNewlines(t[1..]) && l in rest
    ensures !IsComment(l) && RTrim(l) == l
  {
    var ls := SplitNewlines(t);
    if t[0] == '\n' {
      assert ls == [""] + rest;
      assert l in ls;
    } else if l == rest[0] {
      assert ls[0] == [t[0]] + l && ls[0] in ls;
      TrimSpaceFirst(t[0], l);
      LastStays([t[0]] + l, l);
    } else {
      assert l in rest[1..];
      assert l in ls;
    }
  }

  lemma LastStays(whole: string, l: string)
    requires RTrim(whole) == whole && |l| <= |whole| && l == whole[|whole| - |l|..]
    ensures RTrim(l) == l
  {
    assert l != "" ==> l[|l| - 1] == whole[|whole| - 1];
  }

  lemma EndsSolid(l: string)
    ensures RTrim(l) == l ==> l == "" || !IsSpace(l[|l| - 1])
  {
  }

  lemma {:induction false} CleanRTrim(t: string)
    requires Clean(t)
    ensures Clean(RTrim(t))
  {
    hide IsSpace;
    if t != "" && IsSpace(t[|t| - 1]) {
      var u, c := t[..|t| - 1], t[|t| - 1];
      assert t == u + [c];
      SplitLast(u, c);
      var ls := SplitNewlines(u);
      var all := SplitNewlines(t);
      var last := all[|all| - 1];
      assert last in all && RTrim(last) == last;
      EndsSolid(last);
      assert c == '\n';
      forall l | l in ls ensures !IsComment(l) && RTrim(l) == l {
        assert l in SplitNewlines(t);
      }
      CleanRTrim(u);
    }
  }

  lemma {:induction false} KeptIsClean(lines: seq<string>)
    ensures forall l <- Kept(lines) :: !IsComment(l) && RTrim(l) == l
  {
    if lines != [] {
      KeptIsClean(lines[1..]);
      RTrimLine(lines[0]);
      hide IsComment;
      assert RTrim(RTrim(lines[0])) == RTrim(lines[0]);
    }
  }

  lemma BodyIsCanonical(lines: seq<string>)
    requires forall i :: 0 <= i < |lines| ==> OneLine(lines[i])
    ensures Canonical(Body(lines))
  {
    var kept := Kept(lines);
    var t := JoinLines(kept);
    assert Clean(t) by {
      ContentKept(lines);
      if kept == [] {
        assert SplitNewlines("") == [""] && LTrim("") == "" && RTrim("") == "";
      } else {
        SplitJoined(kept);
        KeptIsClean(lines);
      }
    }
    hide IsComment, LTrim, RTrim, Kept, SplitNewlines;
    CleanLTrim(t);
    CleanRTrim(LTrim(t));
    TrimTwice(t);
  }

  lemma {:induction false} NameLenIsName(t: string)
    ensures forall i :: 0 <= i < NameLen(t) ==> IsNameChar(t[i])
  {
    if t != "" && IsNameChar(t[0]) {
      NameLenIsName(t[1..]);
    }
  }

  lemma SpacedNameIsName(t: string)
    requires SpacedName(t).Some?
    ensures IsName(SpacedName(t).value.0)
  {
    var r := LTrim(t);
    NameLenIsName(r);
    assert IsNameChar(r[0]);
  }

  lemma MarkerNames(line: string)
    requires Marker(line).Some?
    ensures IsName(Marker(line).value.block) && IsName(Marker(line).value.variant)
  {
    var r := LTrim(Trim(line)[2..])[6..];
    SpacedNameIsName(r);
    SpacedNameIsName(SpacedName(r).value.1);
  }

  ghost predicate SectionsPrintable(sections: seq<Section>) {
    forall s <- sections :: Printable(Entry(s.mark, Body(s.lines)))
  }

  lemma {:induction false} SectionsArePrintable(lines: seq<string>)
    requires forall i :: 0 <= i < |lines| ==> OneLine(lines[i])
    ensures SectionsPrintable(Sections(lines))
  {
    hide Marker, Body, IsName, Canonical, OneLine;
    if lines != [] {
      SectionsArePrintable(lines[1..]);
      if Marker(lines[0]).Some? {
        MarkerNames(lines[0]);
        ContentSections(lines[1..]);
        BodyIsCanonical(Preface(lines[1..]));
      }
    }
  }

  // ----- an accepted file, entry by entry

  function EntriesOf(sections: seq<Section>): (r: seq<Entry>)
    ensures |r| == |sections|
  {
    if sections == [] then [] else [Entry(sections[0].mark, Body(sections[0].lines))] + EntriesOf(sections[1..])
  }

  // The entries of a file, in its order.
  function FileEntries(lines: seq<string>): seq<Entry> {
    EntriesOf(Sections(lines))
  }

  function EntryContent(entries: seq<Entry>): seq<string> {
    if entries == [] then [] else Content(SplitNewlines(entries[0].body)) + EntryContent(entries[1..])
  }

  lemma {:induction false} ContentOfEntries(sections: seq<Section>)
    ensures BodyContent(sections) == EntryContent(EntriesOf(sections))
  {
    hide Content, Body;
    if sections != [] {
      ContentOfEntries(sections[1..]);
      assert EntriesOf(sections)[1..] == EntriesOf(sections[1..]);
    }
  }

  ghost predicate Distinct(entries: seq<Entry>) {
    forall i, j :: 0 <= i < j < |entries| ==> entries[i].mark != entries[j].mark
  }

  lemma DistinctFirst(e: Entry, rest: seq<Entry>)
    requires Distinct(rest) && forall f <- rest :: f.mark != e.mark
    ensures Distinct([e] + rest)
  {
  }

  predicate HoldsAs(blocks: Blocks, e: Entry) {
    Holds(blocks, e.mark) && blocks[e.mark.block][e.mark.variant] == e.body
  }

  // `whole` holds what `blocks` holds and the entries besides, each once.
  ghost predicate Files(blocks: Blocks, entries: seq<Entry>, whole: Blocks) {
    && (forall b, v :: Holds(blocks, Mark(b, v)) ==> Holds(whole, Mark(b, v)) && whole[b][v] == blocks[b][v])
    && (forall e <- entries :: !Holds(blocks, e.mark) && HoldsAs(whole, e))
    && Distinct(entries)
    && (forall b, v :: Holds(whole, Mark(b, v)) ==> Holds(blocks, Mark(b, v)) || Listed(entries, Mark(b, v)))
    && ((forall b <- blocks :: blocks[b] != map[]) ==> forall b <- whole :: whole[b] != map[])
  }

  lemma PutIs(blocks: Blocks, m: Mark, body: string)
    ensures var next := Put(blocks, m, body);
            && Holds(next, m) && next[m.block][m.variant] == body
            && (forall b, v :: Holds(next, Mark(b, v)) <==> Holds(blocks, Mark(b, v)) || Mark(b, v) == m)
            && (forall b, v :: Holds(blocks, Mark(b, v)) && Mark(b, v) != m ==> next[b][v] == blocks[b][v])
            && ((forall b <- blocks :: blocks[b] != map[]) ==> forall b <- next :: next[b] != map[])
  {
    var next := Put(blocks, m, body);
    assert m.variant in next[m.block];
  }

  lemma FilesFirst(blocks: Blocks, e: Entry, rest: seq<Entry>, whole: Blocks)
    requires !Holds(blocks, e.mark) && Files(Put(blocks, e.mark, e.body), rest, whole)
    ensures Files(blocks, [e] + rest, whole)
  {
    var m := e.mark;
    PutIs(blocks, m, e.body);
    var next, entries := Put(blocks, m, e.body), [e] + rest;
    assert Mark(m.block, m.variant) == m;
    assert HoldsAs(next, e);
    assert HoldsAs(whole, e);
    hide Holds, HoldsAs, Put, Listed, Distinct;
    forall f | f in rest ensures !Holds(blocks, f.mark) && f.mark != m {
      assert Mark(f.mark.block, f.mark.variant) == f.mark;
    }
    DistinctFirst(e, rest);
    forall b, v | Holds(whole, Mark(b, v)) ensures Holds(blocks, Mark(b, v)) || Listed(entries, Mark(b, v)) {
      ListedFirst(e, rest, Mark(b, v));
    }
  }

  lemma ListedFirst(e: Entry, rest: seq<Entry>, m: Mark)
    ensures Listed([e] + rest, m) <==> e.mark == m || Listed(rest, m)
  {
    assert e in [e] + rest;
    assert forall f <- rest :: f in [e] + rest;
  }

  lemma {:induction false} FiledFiles(blocks: Blocks, sections: seq<Section>)
    requires Filed(blocks, sections).Ok?
    ensures Files(blocks, EntriesOf(sections), Filed(blocks, sections).value)
    decreases |sections|
  {
    if sections != [] {
      var e := Entry(sections[0].mark, Body(sections[0].lines));
      hide Holds, Put, Files, Body;
      FiledFiles(Put(blocks, e.mark, e.body), sections[1..]);
      FilesFirst(blocks, e, EntriesOf(sections[1..]), Filed(blocks, sections).value);
    } else {
      assert forall m :: !Listed([], m);
    }
  }

  lemma FilesLists(entries: seq<Entry>, blocks: Blocks)
    requires Files(map[], entries, blocks)
    ensures Lists(entries, blocks)
  {
    hide Listed;
  }

  lemma AcceptedFiles(lines: seq<string>, blocks: Blocks)
    requires IsLoad(lines, Ok(blocks))
    ensures Filed(map[], Sections(lines)) == Ok(blocks) && blocks != map[] && Rectangular(blocks)
        && Body(Preface(lines)) == ""
    ensures Lists(FileEntries(lines), blocks)
  {
    hide Sections, Filed, Rectangular, Body, Preface, Files, Lists, EntriesOf;
    FiledFiles(map[], Sections(lines));
    FilesLists(FileEntries(lines), blocks);
  }

  // The blocks of an accepted file are its entries, each once, and every line that says something stands in one
  // of their bodies, in order, and nothing else does.
  lemma EveryLineLandsOnce(lines: seq<string>, blocks: Blocks)
    requires forall i :: 0 <= i < |lines| ==> OneLine(lines[i])
    requires IsLoad(lines, Ok(blocks))
    ensures Lists(FileEntries(lines), blocks) && Content(lines) == EntryContent(FileEntries(lines))
  {
    hide *;
    AcceptedFiles(lines, blocks);
    ContentIsInBodies(lines);
    ContentOfEntries(Sections(lines));
    EntriesAre(lines);
  }

  lemma EntriesAre(lines: seq<string>)
    ensures FileEntries(lines) == EntriesOf(Sections(lines))
  {
  }

  lemma {:induction false} EntriesPrintable(sections: seq<Section>)
    requires SectionsPrintable(sections)
    ensures forall e <- EntriesOf(sections) :: Printable(e)
  {
    hide Body, Printable;
    if sections != [] {
      assert sections[0] in sections;
      EntriesPrintable(sections[1..]);
    }
  }

  // An accepted file prints, entry by entry, and loads as itself and as nothing else.
  lemma AcceptedPrints(lines: seq<string>, blocks: Blocks, r: Result<Blocks>)
    requires forall i :: 0 <= i < |lines| ==> OneLine(lines[i])
    requires IsLoad(lines, Ok(blocks))
    ensures Lists(FileEntries(lines), blocks) && forall e <- FileEntries(lines) :: Printable(e)
    ensures IsLoad(Print(FileEntries(lines)), r) <==> r == Ok(blocks)
  {
    hide *;
    AcceptedFiles(lines, blocks);
    SectionsArePrintable(lines);
    EntriesPrintable(Sections(lines));
    EntriesAre(lines);
    PrintedLoads(FileEntries(lines), blocks, r);
  }
}
