/** The in-place schema annotator: it splices `_field_type` lines into the list it is walking.
    A line is held without its newline. */
module Annotator {
  import opened Text

  const FIELD_INDENT := "        "
  const FIELD_TYPE_LINE := FIELD_INDENT + "_field_type: base"
  const RESOURCE_TYPE_LINE := "resource_type: core"

  datatype Result<T> = Ok(value: T) | MissingCurrent

  // ----- what a line is

  predicate IsColumnsHeader(l: string) { l == "    columns:" }

  predicate IsColumnStart(l: string) { "      - name:" <= l }

  predicate IsColumnsEnd(l: string) {
    "    " <= l && |l| > 4 && !IsSpace(l[4]) && !("      " <= l)
  }

  predicate IsVersionKey(l: string) {
    "  " <= l && |l| > 2 && !IsSpace(l[2]) && !("    " <= l)
  }

  predicate IsBlank(l: string) { Trim(l) == "" }

  predicate HasFieldType(l: string) { "_field_type:" <= LTrim(l) }

  predicate EndsBlock(l: string) {
    IsColumnStart(l) || IsColumnsEnd(l) || IsVersionKey(l)
  }

  // ----- the header

  // How many lines come before the first `versions:`.
  function HeaderEnd(ls: seq<string>): (n: nat)
    ensures n <= |ls|
  {
    if ls == [] || "versions:" <= ls[0] then 0 else 1 + HeaderEnd(ls[1..])
  }

  function FirstWith(ls: seq<string>, prefix: string): (n: nat)
    ensures n <= |ls|
    ensures n < |ls| ==> prefix <= ls[n]
    ensures forall i :: 0 <= i < n ==> !(prefix <= ls[i])
  {
    if ls == [] || prefix <= ls[0] then 0 else 1 + FirstWith(ls[1..], prefix)
  }

  predicate HasResourceType(ls: seq<string>) {
    var header := ls[..HeaderEnd(ls)];
    FirstWith(header, "resource_type:") < |header|
  }

  // The lines with `resource_type` in the header, and whether it had to be put there.
  function WithResourceType(ls: seq<string>): Result<(seq<string>, bool)> {
    var header := ls[..HeaderEnd(ls)];
    var i := FirstWith(header, "current:");
    if HasResourceType(ls) then Ok((ls, false))
    else if i < |header| then Ok((ls[..i + 1] + [RESOURCE_TYPE_LINE] + ls[i + 1..], true))
    else MissingCurrent
  }

  // ----- the columns

  // How many of the lines after a column's first line belong to the column.
  function BlockTail(ls: seq<string>): (n: nat)
    ensures n <= |ls|
    ensures n < |ls| ==> EndsBlock(ls[n])
    ensures forall i :: 0 <= i < n ==> !EndsBlock(ls[i])
  {
    if ls == [] || EndsBlock(ls[0]) then 0 else 1 + BlockTail(ls[1..])
  }

  predicate BlockHasFieldType(block: seq<string>) {
    exists i :: 0 <= i < |block| && HasFieldType(block[i])
  }

  function DropTrailingBlanks(block: seq<string>): (r: seq<string>)
    ensures r <= block
    ensures forall i :: |r| <= i < |block| ==> IsBlank(block[i])
    ensures r != [] ==> !IsBlank(r[|r| - 1])
  {
    if block != [] && IsBlank(block[|block| - 1]) then DropTrailingBlanks(block[..|block| - 1]) else block
  }

  function Mended(block: seq<string>): seq<string> {
    if BlockHasFieldType(block) then block else DropTrailingBlanks(block) + [FIELD_TYPE_LINE]
  }

  // Whether the lines after `l` are inside a `columns:` list, if `l` does not start a column.
  function InColumnsAfter(l: string, inColumns: bool): bool {
    IsColumnsHeader(l) || (inColumns && !IsColumnsEnd(l))
  }

  predicate StartsBlock(l: string, inColumns: bool) {
    inColumns && IsColumnStart(l) && !IsColumnsHeader(l) && !IsColumnsEnd(l)
  }

  // The column blocks a scan detects.
  function Blocks(ls: seq<string>, inColumns: bool): seq<seq<string>> {
    if ls == [] then []
    else if StartsBlock(ls[0], inColumns) then
      var n := 1 + BlockTail(ls[1..]);
      [ls[..n]] + Blocks(ls[n..], true)
    else Blocks(ls[1..], InColumnsAfter(ls[0], inColumns))
  }

  function Annotated(ls: seq<string>, inColumns: bool): seq<string> {
    if ls == [] then []
    else if StartsBlock(ls[0], inColumns) then
      var n := 1 + BlockTail(ls[1..]);
      Mended(ls[..n]) + Annotated(ls[n..], true)
    else [ls[0]] + Annotated(ls[1..], InColumnsAfter(ls[0], inColumns))
  }

  // How many blocks carry no `_field_type`.
  function Lacking(blocks: seq<seq<string>>): nat {
    if blocks == [] then 0 else (if BlockHasFieldType(blocks[0]) then 0 else 1) + Lacking(blocks[1..])
  }

  // ----- the scans, one line at a time

  lemma HeaderEndFrom(ls: seq<string>, i: nat)
    requires i <= |ls|
    ensures HeaderEnd(ls[i..]) == if i < |ls| && !("versions:" <= ls[i]) then 1 + HeaderEnd(ls[i + 1..]) else 0
  {
    assert i < |ls| ==> ls[i..][0] == ls[i] && ls[i..][1..] == ls[i + 1..];
  }

  lemma FirstWithFrom(ls: seq<string>, prefix: string, i: nat)
    requires i <= |ls|
    ensures FirstWith(ls[i..], prefix) == if i < |ls| && !(prefix <= ls[i]) then 1 + FirstWith(ls[i + 1..], prefix)
        else 0
  {
    assert i < |ls| ==> ls[i..][0] == ls[i] && ls[i..][1..] == ls[i + 1..];
  }

  lemma BlockTailFrom(ls: seq<string>, i: nat)
    requires i <= |ls|
    ensures BlockTail(ls[i..]) == if i < |ls| && !EndsBlock(ls[i]) then 1 + BlockTail(ls[i + 1..]) else 0
  {
    assert i < |ls| ==> ls[i..][0] == ls[i] && ls[i..][1..] == ls[i + 1..];
  }

  // The list up to `i` is final, and the rest is still to be scanned.
  ghost predicate ScannedTo(orig: seq<string>, ls: seq<string>, i: nat, inColumns: bool, updated: nat)
    requires i <= |ls|
  {
    && Annotated(orig, false) == ls[..i] + Annotated(ls[i..], inColumns)
    && Lacking(Blocks(orig, false)) == updated + Lacking(Blocks(ls[i..], inColumns))
  }

  lemma LineStep(orig: seq<string>, ls: seq<string>, i: nat, inColumns: bool, updated: nat)
    requires i < |ls| && ScannedTo(orig, ls, i, inColumns, updated) && !StartsBlock(ls[i], inColumns)
    ensures ScannedTo(orig, ls, i + 1, InColumnsAfter(ls[i], inColumns), updated)
  {
    hide StartsBlock, InColumnsAfter, BlockTail, Mended, Lacking;
    assert ls[i..][0] == ls[i] && ls[i..][1..] == ls[i + 1..] && ls[..i + 1] == ls[..i] + [ls[i]];
  }

  lemma BlockStep(orig: seq<string>, ls: seq<string>, i: nat, end: nat, updated: nat)
    requires i < |ls| && ScannedTo(orig, ls, i, true, updated) && StartsBlock(ls[i], true)
    requires end == i + 1 + BlockTail(ls[i + 1..])
    ensures var block := ls[i..end];
            var next := ls[..i] + Mended(block) + ls[end..];
            ScannedTo(orig, next, i + |Mended(block)|, true, if BlockHasFieldType(block) then updated else updated + 1)
  {
    hide *;
    var block := ls[i..end];
    var rest, next := ls[i..], ls[..i] + Mended(block) + ls[end..];
    var j := i + |Mended(block)|;
    assert rest[1..] == ls[i + 1..] && rest[..end - i] == block && rest[end - i..] == ls[end..] && rest[0] == ls[i];
    BlockUnfold(rest, end - i);
    assert next[j..] == ls[end..] && next[..j] == ls[..i] + Mended(block);
    ScannedMeans(orig, ls, i, true, updated);
    ScannedMeans(orig, next, j, true, if BlockHasFieldType(block) then updated else updated + 1);
  }

  lemma ScannedMeans(orig: seq<string>, ls: seq<string>, i: nat, inColumns: bool, updated: nat)
    requires i <= |ls|
    ensures ScannedTo(orig, ls, i, inColumns, updated) <==>
              Annotated(orig, false) == ls[..i] + Annotated(ls[i..], inColumns) &&
              Lacking(Blocks(orig, false)) == updated + Lacking(Blocks(ls[i..], inColumns))
  {
  }

  lemma BlockUnfold(ls: seq<string>, n: nat)
    requires ls != [] && StartsBlock(ls[0], true) && n == 1 + BlockTail(ls[1..])
    ensures Annotated(ls, true) == Mended(ls[..n]) + Annotated(ls[n..], true)
    ensures Blocks(ls, true) == [ls[..n]] + Blocks(ls[n..], true)
    ensures Lacking(Blocks(ls, true)) == (if BlockHasFieldType(ls[..n]) then 0 else 1) + Lacking(Blocks(ls[n..], true))
  {
    hide StartsBlock, BlockTail, Mended, BlockHasFieldType;
    assert Blocks(ls, true)[1..] == Blocks(ls[n..], true);
  }

  lemma LineUnfold(ls: seq<string>, inColumns: bool)
    requires ls != [] && !StartsBlock(ls[0], inColumns)
    ensures var c := InColumnsAfter(ls[0], inColumns);
            Annotated(ls, inColumns) == [ls[0]] + Annotated(ls[1..], c) && Blocks(ls, inColumns) == Blocks(ls[1..], c)
  {
    hide StartsBlock, InColumnsAfter;
  }

  // ----- the list the script edits

  class LineList {
    var lines: seq<string>

    constructor (ls: seq<string>)
      ensures lines == ls
    {
      lines := ls;
    }

    method EnsureResourceType() returns (r: Result<bool>)
      modifies this
      ensures match WithResourceType(old(lines))
              case Ok((ls, changed)) => r == Ok(changed) && lines == ls
              case MissingCurrent => r == MissingCurrent && lines == old(lines)
    {
      hide HeaderEnd, FirstWith;
      var headerEnd := |lines|;
      var i := 0;
      assert lines[0..] == lines;
      while i < |lines|
        invariant 0 <= i <= |lines| == headerEnd && lines == old(lines)
        invariant HeaderEnd(lines) == i + HeaderEnd(lines[i..])
      {
        HeaderEndFrom(lines, i);
        if "versions:" <= lines[i] {
          headerEnd := i;
          break;
        }
        i := i + 1;
      }
      HeaderEndFrom(lines, |lines|);
      assert headerEnd == HeaderEnd(lines);
      ghost var header := lines[..headerEnd];
      assert header[0..] == header;
      i := 0;
      while i < headerEnd
        invariant 0 <= i <= headerEnd && lines == old(lines)
        invariant FirstWith(header, "resource_type:") == i + FirstWith(header[i..], "resource_type:")
      {
        FirstWithFrom(header, "resource_type:", i);
        if "resource_type:" <= lines[i] {
          return Ok(false);
        }
        i := i + 1;
      }
      FirstWithFrom(header, "resource_type:", i);
      i := 0;
      while i < headerEnd
        invariant 0 <= i <= headerEnd && lines == old(lines)
        invariant FirstWith(header, "current:") == i + FirstWith(header[i..], "current:")
      {
        FirstWithFrom(header, "current:", i);
        if "current:" <= lines[i] {
          lines := lines[..i + 1] + [RESOURCE_TYPE_LINE] + lines[i + 1..];
          return Ok(true);
        }
        i := i + 1;
      }
      FirstWithFrom(header, "current:", i);
      r := MissingCurrent;
    }

    method ColumnBlockEnd(start: nat) returns (end: nat)
      requires start < |lines|
      ensures end == start + 1 + BlockTail(lines[start + 1..])
    {
      end := start + 1;
      while end < |lines|
        invariant start < end <= |lines|
        invariant BlockTail(lines[start + 1..]) == end - start - 1 + BlockTail(lines[end..])
      {
        BlockTailFrom(lines, end);
        var line := lines[end];
        if IsColumnStart(line) {
          break;
        }
        if IsColumnsEnd(line) {
          break;
        }
        if IsVersionKey(line) {
          break;
        }
        end := end + 1;
      }
    }

    method AnnotateColumns() returns (updated: nat)
      modifies this
      ensures lines == Annotated(old(lines), false)
      ensures updated == Lacking(Blocks(old(lines), false))
    {
      hide Annotated, Blocks, Lacking, BlockTail, IsColumnStart, IsColumnsEnd, IsColumnsHeader, IsBlank, HasFieldType;
      updated := 0;
      var i := 0;
      var inColumns := false;
      assert lines[0..] == lines && [] + Annotated(lines, false) == Annotated(lines, false);
      while i < |lines|
        invariant 0 <= i <= |lines|
        invariant ScannedTo(old(lines), lines, i, inColumns, updated)
        decreases |lines| - i
      {
        var line := lines[i];
        if IsColumnsHeader(line) {
          LineStep(old(lines), lines, i, inColumns, updated);
          inColumns := true;
          i := i + 1;
          continue;
        }
        if !inColumns {
          LineStep(old(lines), lines, i, inColumns, updated);
          i := i + 1;
          continue;
        }
        if IsColumnsEnd(line) {
          LineStep(old(lines), lines, i, inColumns, updated);
          inColumns := false;
          i := i + 1;
          continue;
        }
        if !IsColumnStart(line) {
          LineStep(old(lines), lines, i, inColumns, updated);
          i := i + 1;
          continue;
        }
        var end := ColumnBlockEnd(i);
        var block := lines[i..end];
        ghost var original := block;
        BlockStep(old(lines), lines, i, end, updated);
        if exists k :: 0 <= k < |block| && HasFieldType(block[k]) {
          assert lines[..i] + block + lines[end..] == lines;
          i := end;
          continue;
        }
        while block != [] && IsBlank(block[|block| - 1])
          invariant DropTrailingBlanks(original) == DropTrailingBlanks(block)
        {
          block := block[..|block| - 1];
        }
        block := block + [FIELD_TYPE_LINE];
        lines := lines[..i] + block + lines[end..];
        updated := updated + 1;
        i := i + |block|;
      }
      AnnotatedDone(lines, i, inColumns);
    }
  }

  lemma AnnotatedDone(ls: seq<string>, i: nat, inColumns: bool)
    requires i == |ls|
    ensures ls[..i] + Annotated(ls[i..], inColumns) == ls && Lacking(Blocks(ls[i..], inColumns)) == 0
  {
    assert ls[i..] == [];
  }

  // ----- blank lines

  function NonBlank(ls: seq<string>): seq<string> {
    if ls == [] then []
    else if IsBlank(ls[0]) then NonBlank(ls[1..])
    else [ls[0]] + NonBlank(ls[1..])
  }

  lemma {:induction false} NonBlankConcat(a: seq<string>, b: seq<string>)
    ensures NonBlank(a + b) == NonBlank(a) + NonBlank(b)
  {
    hide IsBlank;
    if a == [] {
      assert a + b == b;
    } else {
      assert (a + b)[1..] == a[1..] + b;
      NonBlankConcat(a[1..], b);
    }
  }

  lemma {:induction false} NoNonBlank(ls: seq<string>)
    requires forall i :: 0 <= i < |ls| ==> IsBlank(ls[i])
    ensures NonBlank(ls) == []
  {
    if ls != [] {
      NoNonBlank(ls[1..]);
    }
  }

  lemma {:induction false} LTrimEmpty(l: string)
    ensures LTrim(l) == "" <==> AllSpace(l)
  {
    if l != "" && IsSpace(l[0]) {
      LTrimEmpty(l[1..]);
      assert AllSpace(l[1..]) ==> AllSpace(l) by {
        assert forall i :: 0 < i < |l| ==> l[i] == l[1..][i - 1];
      }
    }
  }

  // A blank line is none of the lines a scan acts on.
  lemma BlankLine(l: string)
    requires IsBlank(l)
    ensures !IsColumnsHeader(l) && !EndsBlock(l) && !HasFieldType(l)
    ensures !("versions:" <= l) && !("resource_type:" <= l) && !("current:" <= l)
  {
    var r := LTrim(l);
    assert AllSpace(r) by { assert r[|RTrim(r)|..] == r; }
    LTrimEmpty(l);
    hide IsSpace, LTrim, RTrim;
    SpacesOnly(l);
  }

  lemma SpacesOnly(l: string)
    requires AllSpace(l)
    ensures !("    columns:" <= l) && !("      - name:" <= l) && !IsColumnsEnd(l) && !IsVersionKey(l)
    ensures !("versions:" <= l) && !("resource_type:" <= l) && !("current:" <= l)
  {
    assert |l| > 0 ==> IsSpace(l[0]);
    assert |l| > 2 ==> IsSpace(l[2]);
    assert |l| > 4 ==> IsSpace(l[4]);
    assert |l| > 6 ==> IsSpace(l[6]);
  }

  lemma InsertedLine()
    ensures var l := FIELD_TYPE_LINE;
            !IsColumnsHeader(l) && !EndsBlock(l) && HasFieldType(l) && !IsBlank(l) && !("versions:" <= l)
              && !("resource_type:" <= l)
  {
    var l := FIELD_TYPE_LINE;
    LTrimSpaces(FIELD_INDENT, "_field_type: base");
    assert HasFieldType(l);
    hide HasFieldType, IsBlank;
    assert !IsBlank(l) by {
      if IsBlank(l) {
        BlankLine(l);
      }
    }
    assert forall i :: 0 <= i < 8 ==> l[i] == ' ';
    assert !("    columns:" <= l) by { assert "    columns:"[4] == 'c'; }
    assert !("      - name:" <= l) by { assert "      - name:"[6] == '-'; }
    assert !("versions:" <= l) by { assert "versions:"[0] == 'v'; }
    assert !("resource_type:" <= l) by { assert "resource_type:"[0] == 'r'; }
  }

  // ----- what annotation does

  // `ys` is `xs` with `k` copies of the `_field_type` line and `h` of the `resource_type` line put in.
  ghost predicate Woven(xs: seq<string>, ys: seq<string>, k: nat, h: nat) {
    if ys == [] then xs == [] && k == 0 && h == 0
    else
      || (xs != [] && xs[0] == ys[0] && Woven(xs[1..], ys[1..], k, h))
      || (k > 0 && ys[0] == FIELD_TYPE_LINE && Woven(xs, ys[1..], k - 1, h))
      || (h > 0 && ys[0] == RESOURCE_TYPE_LINE && Woven(xs, ys[1..], k, h - 1))
  }

  lemma {:induction false} WovenSelf(xs: seq<string>)
    ensures Woven(xs, xs, 0, 0)
  {
    if xs != [] {
      WovenSelf(xs[1..]);
    }
  }

  lemma {:induction false} WovenTwice(xs: seq<string>, ys: seq<string>, zs: seq<string>, k: nat, h: nat, k': nat,
      h': nat)
    requires Woven(xs, ys, k, h) && Woven(ys, zs, k', h')
    ensures Woven(xs, zs, k + k', h + h')
    decreases |zs|
  {
    if zs != [] {
      if ys != [] && ys[0] == zs[0] && Woven(ys[1..], zs[1..], k', h') {
        if xs != [] && xs[0] == ys[0] && Woven(xs[1..], ys[1..], k, h) {
          WovenTwice(xs[1..], ys[1..], zs[1..], k, h, k', h');
        } else if k > 0 && ys[0] == FIELD_TYPE_LINE && Woven(xs, ys[1..], k - 1, h) {
          WovenTwice(xs, ys[1..], zs[1..], k - 1, h, k', h');
        } else {
          WovenTwice(xs, ys[1..], zs[1..], k, h - 1, k', h');
        }
      } else if k' > 0 && zs[0] == FIELD_TYPE_LINE && Woven(ys, zs[1..], k' - 1, h') {
        WovenTwice(xs, ys, zs[1..], k, h, k' - 1, h');
      } else {
        WovenTwice(xs, ys, zs[1..], k, h, k', h' - 1);
      }
    }
  }

  lemma {:induction false} WovenAfter(p: seq<string>, xs: seq<string>, ys: seq<string>, k: nat, h: nat)
    requires Woven(xs, ys, k, h)
    ensures Woven(p + xs, p + ys, k, h)
  {
    if p == [] {
      assert p + xs == xs && p + ys == ys;
    } else {
      assert (p + xs)[1..] == p[1..] + xs && (p + ys)[1..] == p[1..] + ys;
      WovenAfter(p[1..], xs, ys, k, h);
    }
  }

  lemma WovenNothing(inColumns: bool)
    ensures Woven(NonBlank([]), NonBlank(Annotated([], inColumns)), Lacking(Blocks([], inColumns)), 0)
  {
  }

  lemma BlockInColumns(l: string, inColumns: bool)
    requires StartsBlock(l, inColumns)
    ensures inColumns
  {
  }

  lemma WovenInsert(p: seq<string>, xs: seq<string>, ys: seq<string>, k: nat)
    requires Woven(xs, ys, k, 0)
    ensures Woven(p + xs, p + [FIELD_TYPE_LINE] + ys, k + 1, 0)
  {
    var zs := [FIELD_TYPE_LINE] + ys;
    assert zs[1..] == ys;
    WovenAfter(p, xs, zs, k + 1, 0);
    assert p + zs == p + [FIELD_TYPE_LINE] + ys;
  }

  lemma NonBlankMended(block: seq<string>)
    ensures NonBlank(Mended(block)) == NonBlank(block) + if BlockHasFieldType(block) then [] else [FIELD_TYPE_LINE]
  {
    InsertedLine();
    hide IsBlank, DropTrailingBlanks, BlockHasFieldType;
    if BlockHasFieldType(block) {
      assert NonBlank(block) + [] == NonBlank(block);
    } else {
      var d := DropTrailingBlanks(block);
      var blanks := block[|d|..];
      assert block == d + blanks;
      NoNonBlank(blanks);
      NonBlankConcat(d, blanks);
      NonBlankConcat(d, [FIELD_TYPE_LINE]);
      assert NonBlank([FIELD_TYPE_LINE]) == [FIELD_TYPE_LINE] + NonBlank([]);
    }
  }

  // Nothing but blank lines is lost and nothing but the inserted line is gained, once a lacking block.
  lemma {:induction false} AnnotatedIsWoven(ls: seq<string>, inColumns: bool)
    ensures Woven(NonBlank(ls), NonBlank(Annotated(ls, inColumns)), Lacking(Blocks(ls, inColumns)), 0)
    decreases |ls|
  {
    hide *;
    if ls == [] {
      WovenNothing(inColumns);
    } else {
      if StartsBlock(ls[0], inColumns) {
        BlockInColumns(ls[0], inColumns);
        var n := 1 + BlockTail(ls[1..]);
        BlockUnfold(ls, n);
        AnnotatedIsWoven(ls[n..], true);
        WovenBlock(ls, ls[..n], ls[n..], Annotated(ls[n..], true), Lacking(Blocks(ls[n..], true)));
      } else {
        var c := InColumnsAfter(ls[0], inColumns);
        LineUnfold(ls, inColumns);
        AnnotatedIsWoven(ls[1..], c);
        WovenLine(ls, ls[0], ls[1..], Annotated(ls[1..], c), Lacking(Blocks(ls[1..], c)));
      }
    }
  }

  lemma WovenBlock(ls: seq<string>, block: seq<string>, rest: seq<string>, out: seq<string>, k: nat)
    requires ls == block + rest && Woven(NonBlank(rest), NonBlank(out), k, 0)
    ensures Woven(NonBlank(ls), NonBlank(Mended(block) + out), (if BlockHasFieldType(block) then 0 else 1) + k, 0)
  {
    hide *;
    NonBlankConcat(block, rest);
    NonBlankConcat(Mended(block), out);
    NonBlankMended(block);
    if BlockHasFieldType(block) {
      assert NonBlank(block) + [] == NonBlank(block);
      WovenAfter(NonBlank(block), NonBlank(rest), NonBlank(out), k, 0);
    } else {
      WovenInsert(NonBlank(block), NonBlank(rest), NonBlank(out), k);
    }
  }

  lemma WovenLine(ls: seq<string>, l: string, rest: seq<string>, out: seq<string>, k: nat)
    requires ls == [l] + rest && Woven(NonBlank(rest), NonBlank(out), k, 0)
    ensures Woven(NonBlank(ls), NonBlank([l] + out), k, 0)
  {
    hide *;
    NonBlankConcat([l], rest);
    NonBlankConcat([l], out);
    WovenAfter(NonBlank([l]), NonBlank(rest), NonBlank(out), k, 0);
  }

  function MendAll(blocks: seq<seq<string>>): seq<seq<string>> {
    if blocks == [] then [] else [Mended(blocks[0])] + MendAll(blocks[1..])
  }

  lemma MendedBlock(block: seq<string>)
    requires block != [] && EndsBlock(block[0]) && forall i :: 1 <= i < |block| ==> !EndsBlock(block[i])
    ensures var m := Mended(block);
            m != [] && m[0] == block[0] && BlockHasFieldType(m) && forall i :: 1 <= i < |m| ==> !EndsBlock(m[i])
  {
    InsertedLine();
    hide HasFieldType, EndsBlock, IsBlank;
    if !BlockHasFieldType(block) {
      var d := DropTrailingBlanks(block);
      if d == [] {
        assert IsBlank(block[0]);
        BlankLine(block[0]);
        assert false;
      }
      var m := d + [FIELD_TYPE_LINE];
      assert m[|d|] == FIELD_TYPE_LINE;
    }
  }

  lemma {:induction false} TailIs(t: seq<string>, rest: seq<string>)
    requires forall i :: 0 <= i < |t| ==> !EndsBlock(t[i])
    requires rest != [] ==> EndsBlock(rest[0])
    ensures BlockTail(t + rest) == |t|
  {
    hide EndsBlock;
    if t == [] {
      assert t + rest == rest;
    } else {
      assert (t + rest)[1..] == t[1..] + rest;
      TailIs(t[1..], rest);
    }
  }

  lemma AnnotatedHead(ls: seq<string>, inColumns: bool)
    ensures ls == [] ==> Annotated(ls, inColumns) == []
    ensures ls != [] ==> Annotated(ls, inColumns) != [] && Annotated(ls, inColumns)[0] == ls[0]
  {
    if ls != [] && StartsBlock(ls[0], inColumns) {
      MendedBlock(ls[..1 + BlockTail(ls[1..])]);
    }
  }

  // The scan of the result finds the same blocks, each with its `_field_type`, and leaves them alone.
  lemma {:induction false} AnnotatedAgain(ls: seq<string>, inColumns: bool)
    ensures Settled(Annotated(ls, inColumns), inColumns, MendAll(Blocks(ls, inColumns)))
    decreases |ls|
  {
    if ls != [] {
      var n := 1 + BlockTail(ls[1..]);
      if StartsBlock(ls[0], inColumns) {
        AnnotatedAgain(ls[n..], true);
        SettledBlock(ls, n);
      } else {
        AnnotatedAgain(ls[1..], InColumnsAfter(ls[0], inColumns));
        hide *;
        LineUnfold(ls, inColumns);
        SettledLine(ls[0], Annotated(ls[1..], InColumnsAfter(ls[0], inColumns)), inColumns,
                    MendAll(Blocks(ls[1..], InColumnsAfter(ls[0], inColumns))));
      }
    }
  }

  ghost predicate Settled(out: seq<string>, inColumns: bool, blocks: seq<seq<string>>) {
    Blocks(out, inColumns) == blocks && Annotated(out, inColumns) == out && Lacking(blocks) == 0
  }

  lemma SettledLine(l: string, tail: seq<string>, inColumns: bool, blocks: seq<seq<string>>)
    requires !StartsBlock(l, inColumns) && Settled(tail, InColumnsAfter(l, inColumns), blocks)
    ensures Settled([l] + tail, inColumns, blocks)
  {
    hide StartsBlock, InColumnsAfter;
    assert ([l] + tail)[1..] == tail;
    LineUnfold([l] + tail, inColumns);
  }

  lemma SettledBlock(ls: seq<string>, n: nat)
    requires ls != [] && StartsBlock(ls[0], true) && n == 1 + BlockTail(ls[1..])
    requires Settled(Annotated(ls[n..], true), true, MendAll(Blocks(ls[n..], true)))
    ensures Settled(Annotated(ls, true), true, MendAll(Blocks(ls, true)))
  {
    var block, rest := ls[..n], ls[n..];
    var m, tail, blocks := Mended(block), Annotated(rest, true), MendAll(Blocks(rest, true));
    assert EndsBlock(ls[0]);
    assert (forall i :: 1 <= i < |block| ==> block[i] == ls[1..][i - 1]) && (rest != [] ==> rest[0] == ls[1..][n - 1]);
    MendedBlock(block);
    AnnotatedHead(rest, true);
    TailIs(m[1..], tail);
    BlockUnfold(ls, n);
    SettledOnto(m, tail, blocks);
    hide *;
    MendFirst(block, Blocks(rest, true));
  }

  lemma MendFirst(block: seq<string>, blocks: seq<seq<string>>)
    ensures MendAll([block] + blocks) == [Mended(block)] + MendAll(blocks)
  {
    hide Mended;
    assert ([block] + blocks)[1..] == blocks;
  }

  lemma SettledOnto(m: seq<string>, tail: seq<string>, blocks: seq<seq<string>>)
    requires m != [] && StartsBlock(m[0], true) && BlockHasFieldType(m) && BlockTail(m[1..] + tail) == |m| - 1
    requires Settled(tail, true, blocks)
    ensures Settled(m + tail, true, [m] + blocks)
  {
    hide StartsBlock, BlockTail, BlockHasFieldType;
    var out := m + tail;
    assert out[1..] == m[1..] + tail && out[..|m|] == m && out[|m|..] == tail;
    BlockUnfold(out, |m|);
    assert ([m] + blocks)[1..] == blocks;
  }

  // ----- what blank lines and inserted lines cannot change

  lemma {:induction false} BlockTailNonBlank(ls: seq<string>)
    ensures var t := BlockTail(ls);
            var xs := NonBlank(ls[..t]);
            NonBlank(ls) == xs + NonBlank(ls[t..]) && BlockTail(NonBlank(ls)) == |xs|
    ensures forall i :: 0 <= i < |NonBlank(ls[..BlockTail(ls)])| ==> !EndsBlock(NonBlank(ls[..BlockTail(ls)])[i])
  {
    var t := BlockTail(ls);
    var xs, rest := NonBlank(ls[..t]), ls[t..];
    assert ls == ls[..t] + rest;
    NonBlankConcat(ls[..t], rest);
    NonBlankKeeps(ls[..t]);
    if rest != [] {
      assert rest[0] == ls[t];
      if IsBlank(rest[0]) {
        BlankLine(rest[0]);
        assert false;
      }
    }
    hide EndsBlock, IsBlank;
    TailIs(xs, NonBlank(rest));
  }

  lemma {:induction false} NonBlankKeeps(ls: seq<string>)
    requires forall i :: 0 <= i < |ls| ==> !EndsBlock(ls[i])
    ensures forall i :: 0 <= i < |NonBlank(ls)| ==> !EndsBlock(NonBlank(ls)[i])
  {
    hide EndsBlock, IsBlank;
    if ls != [] {
      NonBlankKeeps(ls[1..]);
    }
  }

  lemma {:induction false} FieldTypeNonBlank(block: seq<string>)
    ensures BlockHasFieldType(NonBlank(block)) == BlockHasFieldType(block)
  {
    if block != [] {
      FieldTypeNonBlank(block[1..]);
      if IsBlank(block[0]) {
        BlankLine(block[0]);
      }
      hide IsBlank, HasFieldType;
      FieldTypeSplit(block[0], block[1..]);
      FieldTypeSplit(block[0], NonBlank(block[1..]));
      assert block == [block[0]] + block[1..];
    }
  }

  lemma FieldTypeSplit(l: string, ls: seq<string>)
    ensures BlockHasFieldType([l] + ls) <==> HasFieldType(l) || BlockHasFieldType(ls)
  {
    hide HasFieldType;
    var b := [l] + ls;
    if HasFieldType(l) {
      assert HasFieldType(b[0]);
    } else if BlockHasFieldType(ls) {
      var i :| 0 <= i < |ls| && HasFieldType(ls[i]);
      assert b[i + 1] == ls[i];
    } else {
      assert forall i :: 0 < i < |b| ==> b[i] == ls[i - 1];
    }
  }

  // Which blocks lack their line depends on the lines that are not blank.
  lemma {:induction false} LackingNonBlank(ls: seq<string>, inColumns: bool)
    ensures Lacking(Blocks(NonBlank(ls), inColumns)) == Lacking(Blocks(ls, inColumns))
    decreases |ls|
  {
    if ls != [] {
      if StartsBlock(ls[0], inColumns) {
        LackingNonBlank(ls[1 + BlockTail(ls[1..])..], true);
        LackingBlock(ls);
      } else {
        LackingNonBlank(ls[1..], InColumnsAfter(ls[0], inColumns));
        if IsBlank(ls[0]) {
          BlankLine(ls[0]);
          assert InColumnsAfter(ls[0], inColumns) == inColumns;
        }
        hide IsBlank, StartsBlock, InColumnsAfter;
        LineUnfold(ls, inColumns);
        if !IsBlank(ls[0]) {
          assert NonBlank(ls)[1..] == NonBlank(ls[1..]);
          LineUnfold(NonBlank(ls), inColumns);
        }
      }
    }
  }

  lemma LackingBlock(ls: seq<string>)
    requires ls != [] && StartsBlock(ls[0], true)
    requires var rest := ls[1 + BlockTail(ls[1..])..];
             Lacking(Blocks(NonBlank(rest), true)) == Lacking(Blocks(rest, true))
    ensures Lacking(Blocks(NonBlank(ls), true)) == Lacking(Blocks(ls, true))
  {
    hide *;
    var t := BlockTail(ls[1..]);
    var block, rest, xs := ls[..1 + t], ls[1 + t..], NonBlank(ls[1..][..t]);
    BlockTailNonBlank(ls[1..]);
    assert ls[1..][t..] == rest && ls == [ls[0]] + ls[1..] && block == [ls[0]] + ls[1..][..t];
    NotBlankStart(ls[0]);
    NonBlankFirst(ls[0], ls[1..]);
    NonBlankFirst(ls[0], ls[1..][..t]);
    BlockUnfold(ls, 1 + t);
    FieldTypeNonBlank(block);
    BlockOnto(ls[0], xs, NonBlank(rest));
    assert NonBlank(ls) == [ls[0]] + xs + NonBlank(rest);
  }

  lemma NonBlankFirst(l: string, ls: seq<string>)
    requires !IsBlank(l)
    ensures NonBlank([l] + ls) == [l] + NonBlank(ls)
  {
    assert ([l] + ls)[1..] == ls;
  }

  lemma BlockOnto(l: string, xs: seq<string>, tail: seq<string>)
    requires StartsBlock(l, true) && BlockTail(xs + tail) == |xs|
    ensures Lacking(Blocks([l] + xs + tail, true)) ==
              (if BlockHasFieldType([l] + xs) then 0 else 1) + Lacking(Blocks(tail, true))
  {
    hide *;
    var ls := [l] + xs + tail;
    assert ls[1..] == xs + tail && ls[..1 + |xs|] == [l] + xs && ls[1 + |xs|..] == tail && ls[0] == l;
    BlockUnfold(ls, 1 + |xs|);
  }

  lemma NotBlankStart(l: string)
    requires StartsBlock(l, true)
    ensures !IsBlank(l)
  {
    if IsBlank(l) {
      BlankLine(l);
    }
  }

  lemma {:induction false} ResourceTypeStep(ls: seq<string>)
    ensures HasResourceType(ls) <==>
              ls != [] && !("versions:" <= ls[0]) && ("resource_type:" <= ls[0] || HasResourceType(ls[1..]))
  {
    var header := ls[..HeaderEnd(ls)];
    if header != [] {
      assert header[1..] == ls[1..][..HeaderEnd(ls[1..])];
    }
  }

  lemma {:induction false} ResourceTypeNonBlank(ls: seq<string>)
    ensures HasResourceType(NonBlank(ls)) == HasResourceType(ls)
  {
    hide IsBlank, HasResourceType;
    ResourceTypeStep(ls);
    ResourceTypeStep(NonBlank(ls));
    if ls != [] {
      ResourceTypeNonBlank(ls[1..]);
      if IsBlank(ls[0]) {
        BlankLine(ls[0]);
      } else {
        assert NonBlank(ls)[1..] == NonBlank(ls[1..]);
      }
    }
  }

  lemma {:induction false} ResourceTypeWoven(xs: seq<string>, ys: seq<string>, k: nat)
    requires Woven(xs, ys, k, 0)
    ensures HasResourceType(xs) == HasResourceType(ys)
    decreases |ys|
  {
    hide HasResourceType;
    ResourceTypeStep(xs);
    ResourceTypeStep(ys);
    if ys != [] {
      if xs != [] && xs[0] == ys[0] && Woven(xs[1..], ys[1..], k, 0) {
        ResourceTypeWoven(xs[1..], ys[1..], k);
      } else {
        InsertedLine();
        ResourceTypeWoven(xs, ys[1..], k - 1);
      }
    }
  }

  lemma {:induction false} ResourceTypeInserted(ls: seq<string>, i: nat)
    requires i < |ls| && forall j :: 0 <= j <= i ==> !("versions:" <= ls[j])
    ensures HasResourceType(ls[..i + 1] + [RESOURCE_TYPE_LINE] + ls[i + 1..])
  {
    hide HasResourceType;
    var out := ls[..i + 1] + [RESOURCE_TYPE_LINE] + ls[i + 1..];
    assert out[0] == ls[0];
    ResourceTypeStep(out);
    if i == 0 {
      assert out[1..] == [RESOURCE_TYPE_LINE] + ls[1..];
      assert "resource_type:" <= RESOURCE_TYPE_LINE && !("versions:" <= RESOURCE_TYPE_LINE) by {
        assert "versions:"[0] == 'v';
      }
      ResourceTypeStep(out[1..]);
    } else {
      ResourceTypeInserted(ls[1..], i - 1);
      assert out[1..] == ls[1..][..i] + [RESOURCE_TYPE_LINE] + ls[1..][i..];
    }
  }

  // ----- spacing

  // `^(current:.*)\n\n(resource_type:)` loses its blank line.
  function JoinCurrent(ls: seq<string>): seq<string> {
    if ls == [] then []
    else if |ls| > 2 && "current:" <= ls[0] && ls[1] == "" && "resource_type:" <= ls[2] then
      [ls[0]] + JoinCurrent(ls[2..])
    else [ls[0]] + JoinCurrent(ls[1..])
  }

  // `^(resource_type: core)\n(versions:)` gains one.
  function SplitVersions(ls: seq<string>): seq<string> {
    if ls == [] then []
    else if |ls| > 1 && ls[0] == RESOURCE_TYPE_LINE && "versions:" <= ls[1] then [ls[0], ""] + SplitVersions(ls[1..])
    else [ls[0]] + SplitVersions(ls[1..])
  }

  predicate IsColumnField(l: string) {
    FIELD_INDENT <= l && |l| > 8 && !IsSpace(l[8]) && !(FIELD_INDENT + "_field_type:" <= l)
  }

  // `^(        (?!_field_type:)\S.*)\n\n(        _field_type:)` loses its blank line.
  function JoinFieldType(ls: seq<string>): seq<string> {
    if ls == [] then []
    else if |ls| > 2 && IsColumnField(ls[0]) && ls[1] == "" && FIELD_INDENT + "_field_type:" <= ls[2] then
      [ls[0]] + JoinFieldType(ls[2..])
    else [ls[0]] + JoinFieldType(ls[1..])
  }

  // `^(        _field_type: base)\n(      - name:)` gains one.
  function SplitColumns(ls: seq<string>): seq<string> {
    if ls == [] then []
    else if |ls| > 1 && ls[0] == FIELD_TYPE_LINE && IsColumnStart(ls[1]) then [ls[0], ""] + SplitColumns(ls[1..])
    else [ls[0]] + SplitColumns(ls[1..])
  }

  function Normalised(ls: seq<string>): seq<string> {
    SplitColumns(JoinFieldType(SplitVersions(JoinCurrent(ls))))
  }

  lemma NonBlankCons(l: string, a: seq<string>, b: seq<string>)
    requires NonBlank(a) == NonBlank(b)
    ensures NonBlank([l] + a) == NonBlank([l] + b) && NonBlank([l] + a) == NonBlank([l, ""] + a)
  {
    hide IsBlank;
    assert IsBlank("") by { EmptyIsBlank(); }
    assert ([l] + a)[1..] == a && ([l] + b)[1..] == b && ([l, ""] + a)[1..] == [""] + a && ([""] + a)[1..] == a;
  }

  lemma EmptyIsBlank()
    ensures IsBlank("")
  {
  }

  lemma {:induction false} JoinCurrentBlanks(ls: seq<string>)
    ensures NonBlank(JoinCurrent(ls)) == NonBlank(ls)
  {
    if ls != [] {
      assert ls == [ls[0]] + ls[1..];
      if |ls| > 2 && "current:" <= ls[0] && ls[1] == "" && "resource_type:" <= ls[2] {
        JoinCurrentBlanks(ls[2..]);
        assert ls == [ls[0], ""] + ls[2..];
        hide NonBlank, JoinCurrent;
        NonBlankCons(ls[0], ls[2..], JoinCurrent(ls[2..]));
      } else {
        JoinCurrentBlanks(ls[1..]);
        hide NonBlank;
        NonBlankCons(ls[0], ls[1..], JoinCurrent(ls[1..]));
      }
    }
  }

  lemma {:induction false} SplitVersionsBlanks(ls: seq<string>)
    ensures NonBlank(SplitVersions(ls)) == NonBlank(ls)
  {
    if ls != [] {
      hide NonBlank;
      assert ls == [ls[0]] + ls[1..];
      SplitVersionsBlanks(ls[1..]);
      NonBlankCons(ls[0], SplitVersions(ls[1..]), ls[1..]);
    }
  }

  lemma {:induction false} JoinFieldTypeBlanks(ls: seq<string>)
    ensures NonBlank(JoinFieldType(ls)) == NonBlank(ls)
  {
    if ls != [] {
      hide NonBlank, IsColumnField;
      assert ls == [ls[0]] + ls[1..];
      if |ls| > 2 && IsColumnField(ls[0]) && ls[1] == "" && FIELD_INDENT + "_field_type:" <= ls[2] {
        JoinFieldTypeBlanks(ls[2..]);
        assert ls == [ls[0], ""] + ls[2..];
        NonBlankCons(ls[0], ls[2..], JoinFieldType(ls[2..]));
      } else {
        JoinFieldTypeBlanks(ls[1..]);
        NonBlankCons(ls[0], ls[1..], JoinFieldType(ls[1..]));
      }
    }
  }

  lemma {:induction false} SplitColumnsBlanks(ls: seq<string>)
    ensures NonBlank(SplitColumns(ls)) == NonBlank(ls)
  {
    if ls != [] {
      hide NonBlank, IsColumnStart;
      assert ls == [ls[0]] + ls[1..];
      SplitColumnsBlanks(ls[1..]);
      NonBlankCons(ls[0], SplitColumns(ls[1..]), ls[1..]);
    }
  }

  lemma NormalisedBlanks(ls: seq<string>)
    ensures NonBlank(Normalised(ls)) == NonBlank(ls)
  {
    JoinCurrentBlanks(ls);
    SplitVersionsBlanks(JoinCurrent(ls));
    JoinFieldTypeBlanks(SplitVersions(JoinCurrent(ls)));
    SplitColumnsBlanks(JoinFieldType(SplitVersions(JoinCurrent(ls))));
  }

  // ----- the whole file

  // A file's lines, and whether the last one ends in a newline.
  datatype File = File(lines: seq<string>, terminated: bool)
  datatype Report = Report(file: File, changed: bool, columns: nat)

  function Annotation(text: File): Result<Report> {
    match WithResourceType(text.lines)
    case MissingCurrent => MissingCurrent
    case Ok((ls, added)) =>
      var columns := Lacking(Blocks(ls, false));
      if added || columns > 0 then Ok(Report(File(Normalised(Annotated(ls, false)), true), true, columns))
      else Ok(Report(text, false, 0))
  }

  method AnnotateText(text: File) returns (r: Result<Report>)
    ensures r == Annotation(text)
  {
    var lines := new LineList(text.lines);
    var added := lines.EnsureResourceType();
    if added.MissingCurrent? {
      return MissingCurrent;
    }
    var columns := lines.AnnotateColumns();
    if added.value || columns > 0 {
      r := Ok(Report(File(Normalised(lines.lines), true), true, columns));
    } else {
      r := Ok(Report(text, false, 0));
    }
  }

  lemma WithResourceTypeHas(ls: seq<string>)
    requires WithResourceType(ls).Ok?
    ensures HasResourceType(WithResourceType(ls).value.0)
  {
    if !HasResourceType(ls) {
      var n := HeaderEnd(ls);
      var i := FirstWith(ls[..n], "current:");
      BeforeVersions(ls);
      ResourceTypeInserted(ls, i);
    }
  }

  lemma {:induction false} BeforeVersions(ls: seq<string>)
    ensures forall j :: 0 <= j < HeaderEnd(ls) ==> !("versions:" <= ls[j])
  {
    if ls != [] && !("versions:" <= ls[0]) {
      BeforeVersions(ls[1..]);
      assert forall j :: 0 < j < HeaderEnd(ls) ==> ls[j] == ls[1..][j - 1];
    }
  }

  // ----- the header line

  // Does line `k` stand before the first `versions:`?
  ghost predicate InHeader(ls: seq<string>, k: nat) {
    k < |ls| && forall j :: 0 <= j <= k ==> !("versions:" <= ls[j])
  }

  lemma HeaderIs(ls: seq<string>)
    ensures forall k: nat :: k < HeaderEnd(ls) <==> InHeader(ls, k)
  {
    BeforeVersions(ls);
    HeaderStops(ls);
  }

  lemma {:induction false} HeaderStops(ls: seq<string>)
    ensures HeaderEnd(ls) < |ls| ==> "versions:" <= ls[HeaderEnd(ls)]
  {
    if ls != [] {
      HeaderStops(ls[1..]);
    }
  }

  // The line that was put in stands behind the first header line that begins `current:`.
  ghost predicate HeaderLineAdded(ls: seq<string>, out: seq<string>, i: nat) {
    && InHeader(ls, i) && "current:" <= ls[i] && (forall j :: 0 <= j < i ==> !("current:" <= ls[j]))
    && |out| == |ls| + 1 && out[i + 1] == "resource_type: core" && out[..i + 1] + out[i + 2..] == ls
  }

  // A header that has a `resource_type:` is left alone, one that has only a `current:` gains the line right behind
  // it and loses none, and one that has neither is refused.
  lemma WithResourceTypeIs(ls: seq<string>)
    ensures var has := exists k: nat :: InHeader(ls, k) && "resource_type:" <= ls[k];
            var current := exists k: nat :: InHeader(ls, k) && "current:" <= ls[k];
            match WithResourceType(ls)
            case MissingCurrent => !has && !current
            case Ok((out, false)) => has && out == ls
            case Ok((out, true)) => !has && current && exists i :: HeaderLineAdded(ls, out, i)
  {
    HeaderIs(ls);
    HeaderHas(ls, "resource_type:");
    HeaderHas(ls, "current:");
    var header := ls[..HeaderEnd(ls)];
    var i := FirstWith(header, "current:");
    hide HeaderEnd, FirstWith, InHeader;
    if WithResourceType(ls).Ok? && WithResourceType(ls).value.1 {
      var out := ls[..i + 1] + [RESOURCE_TYPE_LINE] + ls[i + 1..];
      InsertedBehind(ls, i);
      assert HeaderLineAdded(ls, out, i);
    }
  }

  lemma HeaderHas(ls: seq<string>, key: string)
    ensures var header := ls[..HeaderEnd(ls)];
            var i := FirstWith(header, key);
            && (i < |header| <==> exists k: nat :: InHeader(ls, k) && key <= ls[k])
            && (i < |header| ==> InHeader(ls, i) && key <= ls[i] && forall j :: 0 <= j < i ==> !(key <= ls[j]))
  {
    HeaderIs(ls);
    var header := ls[..HeaderEnd(ls)];
    hide HeaderEnd, FirstWith, InHeader;
    assert forall k: nat :: InHeader(ls, k) ==> k < |header| && header[k] == ls[k];
    assert forall k: nat :: k < |header| ==> header[k] == ls[k];
  }

  lemma InsertedBehind(ls: seq<string>, i: nat)
    requires i < |ls|
    ensures var out := ls[..i + 1] + [RESOURCE_TYPE_LINE] + ls[i + 1..];
            |out| == |ls| + 1 && out[i + 1] == "resource_type: core" && out[..i + 1] + out[i + 2..] == ls
  {
    var out := ls[..i + 1] + [RESOURCE_TYPE_LINE] + ls[i + 1..];
    assert out[..i + 1] == ls[..i + 1] && out[i + 2..] == ls[i + 1..] && ls[..i + 1] + ls[i + 1..] == ls;
  }

  // The header line is none of the lines that the scan acts on.
  lemma HeaderLine()
    ensures var l := RESOURCE_TYPE_LINE;
            !IsColumnsHeader(l) && !EndsBlock(l) && !HasFieldType(l) && !IsBlank(l)
  {
    var l := RESOURCE_TYPE_LINE;
    assert l[0] == 'r' && !IsSpace('r');
    assert LTrim(l) == l;
    assert "    "[0] == ' ' && "      - name:"[0] == ' ' && "_field_type:"[0] == '_' && "    columns:"[0] == ' ';
    hide LTrim;
    assert RTrim(l) == l;
  }

  lemma TailStep(l: string, ls: seq<string>)
    ensures BlockTail([l] + ls) == if EndsBlock(l) then 0 else 1 + BlockTail(ls)
  {
    hide EndsBlock;
    assert ([l] + ls)[1..] == ls;
  }

  lemma {:induction false} TailPasses(a: seq<string>, l: string, b: seq<string>)
    requires !EndsBlock(l)
    ensures var t := BlockTail(a);
            BlockTail(a + b) == (if t < |a| then t else t + BlockTail(b))
            && BlockTail(a + ([l] + b)) == if t < |a| then t else t + 1 + BlockTail(b)
  {
    TailOnto(a, b);
    TailOnto(a, [l] + b);
    hide *;
    TailStep(l, b);
  }

  lemma {:induction false} TailOnto(a: seq<string>, b: seq<string>)
    ensures BlockTail(a + b) == if BlockTail(a) < |a| then BlockTail(a) else |a| + BlockTail(b)
  {
    hide EndsBlock;
    if a == [] {
      assert a + b == b;
    } else {
      TailOnto(a[1..], b);
      assert a == [a[0]] + a[1..] && a + b == [a[0]] + (a[1..] + b);
      hide BlockTail;
      TailStep(a[0], a[1..]);
      TailStep(a[0], a[1..] + b);
    }
  }

  // A line that the scan does not act on changes no count, wherever it stands.
  lemma {:induction false} LackingInserted(a: seq<string>, l: string, b: seq<string>, inColumns: bool)
    requires !IsColumnsHeader(l) && !EndsBlock(l) && !HasFieldType(l)
    ensures Lacking(Blocks(a + ([l] + b), inColumns)) == Lacking(Blocks(a + b, inColumns))
    decreases |a|
  {
    hide *;
    var with, without := a + ([l] + b), a + b;
    if a == [] {
      assert with == [l] + b && without == b && with[1..] == b;
      LineIsPassed(l, inColumns);
      LineUnfold(with, inColumns);
    } else {
      assert with[1..] == a[1..] + ([l] + b) && without[1..] == a[1..] + b;
      if StartsBlock(a[0], inColumns) {
        BlockInColumns(a[0], inColumns);
        InsertedInBlock(a, l, b);
      } else {
        LackingInserted(a[1..], l, b, InColumnsAfter(a[0], inColumns));
        LineUnfold(with, inColumns);
        LineUnfold(without, inColumns);
      }
    }
  }

  lemma LineIsPassed(l: string, inColumns: bool)
    requires !IsColumnsHeader(l) && !EndsBlock(l)
    ensures !StartsBlock(l, inColumns) && InColumnsAfter(l, inColumns) == inColumns
  {
  }

  lemma {:induction false} InsertedInBlock(a: seq<string>, l: string, b: seq<string>)
    requires !IsColumnsHeader(l) && !EndsBlock(l) && !HasFieldType(l) && a != [] && StartsBlock(a[0], true)
    ensures Lacking(Blocks(a + ([l] + b), true)) == Lacking(Blocks(a + b, true))
    decreases |a|, 0
  {
    hide *;
    var t := BlockTail(a[1..]);
    TailPasses(a[1..], l, b);
    if t < |a| - 1 {
      BlockBefore(a, [l] + b, 1 + t);
      BlockBefore(a, b, 1 + t);
      LackingInserted(a[1 + t..], l, b, true);
    } else {
      var u := BlockTail(b);
      BlockAround(a, [l] + b, u + 1);
      BlockAround(a, b, u);
      assert ([l] + b)[..u + 1] == [l] + b[..u] && ([l] + b)[u + 1..] == b[u..];
      FieldTypePasses(a, l, b[..u]);
    }
  }

  lemma BlockBefore(a: seq<string>, b: seq<string>, n: nat)
    requires a != [] && StartsBlock(a[0], true) && 1 <= n <= |a| && BlockTail(a[1..] + b) == n - 1
    ensures Lacking(Blocks(a + b, true))
         == (if BlockHasFieldType(a[..n]) then 0 else 1) + Lacking(Blocks(a[n..] + b, true))
  {
    hide *;
    var ls := a + b;
    assert ls[0] == a[0] && ls[1..] == a[1..] + b;
    BlockUnfold(ls, n);
    assert ls[..n] == a[..n] && ls[n..] == a[n..] + b;
  }

  lemma BlockAround(a: seq<string>, b: seq<string>, u: nat)
    requires a != [] && StartsBlock(a[0], true) && u <= |b| && BlockTail(a[1..] + b) == |a| - 1 + u
    ensures Lacking(Blocks(a + b, true))
         == (if BlockHasFieldType(a + b[..u]) then 0 else 1) + Lacking(Blocks(b[u..], true))
  {
    hide *;
    var ls := a + b;
    assert ls[0] == a[0] && ls[1..] == a[1..] + b;
    BlockUnfold(ls, |a| + u);
    assert ls[..|a| + u] == a + b[..u] && ls[|a| + u..] == b[u..];
  }

  lemma FieldTypePasses(a: seq<string>, l: string, b: seq<string>)
    requires !HasFieldType(l)
    ensures BlockHasFieldType(a + ([l] + b)) == BlockHasFieldType(a + b)
  {
    hide HasFieldType;
    var with, without := a + ([l] + b), a + b;
    forall i | 0 <= i < |without| ensures without[i] == with[if i < |a| then i else i + 1] {
    }
    forall i | 0 <= i < |with| && i != |a| ensures with[i] == without[if i < |a| then i else i - 1] {
    }
  }

  lemma NonBlankInserted(a: seq<string>, l: string, b: seq<string>)
    requires l == RESOURCE_TYPE_LINE
    ensures Woven(NonBlank(a + b), NonBlank(a + [l] + b), 0, 1)
  {
    HeaderLine();
    hide IsBlank, NonBlank, EndsBlock, HasFieldType, IsColumnsHeader;
    NonBlankConcat(a, b);
    NonBlankConcat(a + [l], b);
    NonBlankConcat(a, [l]);
    NonBlankFirst(l, []);
    assert [l] + [] == [l] && NonBlank([]) == [] by { NothingBlank(); }
    var x := NonBlank(b);
    WovenSelf(x);
    assert ([l] + x)[1..] == x;
    assert Woven(x, [l] + x, 0, 1);
    WovenAfter(NonBlank(a), x, [l] + x, 0, 1);
    assert NonBlank(a) + ([l] + x) == NonBlank(a) + [l] + x;
  }

  lemma NothingBlank()
    ensures NonBlank([]) == []
  {
  }

  // The header line changes neither which columns lack their own nor any other line.
  lemma HeaderLineKeeps(ls: seq<string>, out: seq<string>, i: nat)
    requires HeaderLineAdded(ls, out, i)
    ensures Lacking(Blocks(out, false)) == Lacking(Blocks(ls, false))
    ensures Woven(NonBlank(ls), NonBlank(out), 0, 1)
  {
    var a, b := out[..i + 1], out[i + 2..];
    assert out == a + [RESOURCE_TYPE_LINE] + b && ls == a + b;
    assert out == a + ([RESOURCE_TYPE_LINE] + b);
    hide *;
    HeaderLine();
    LackingInserted(a, RESOURCE_TYPE_LINE, b, false);
    NonBlankInserted(a, RESOURCE_TYPE_LINE, b);
  }

  // What a changed file holds: its header key, a `_field_type` in every column block, and every line of the given
  // file that is not blank, in order, with the header line put in where it was lacking and one line for each column
  // that lacked its own.
  lemma AnnotatedFile(text: File)
    requires Annotation(text).Ok? && Annotation(text).value.changed
    ensures var report, lacking := Annotation(text).value, Lacking(Blocks(text.lines, false));
            var out := report.file.lines;
            && HasResourceType(out)
            && Lacking(Blocks(out, false)) == 0
            && report.columns == lacking
            && Woven(NonBlank(text.lines), NonBlank(out), lacking, if HasResourceType(text.lines) then 0 else 1)
  {
    hide *;
    ChangedIs(text);
    var given := WithResourceType(text.lines).value.0;
    GivenKeeps(text.lines);
    AnnotatedKeeps(given);
    var h: nat := if HasResourceType(text.lines) then 0 else 1;
    WovenTwice(NonBlank(text.lines), NonBlank(given), NonBlank(Normalised(Annotated(given, false))), 0, h,
      Lacking(Blocks(given, false)), 0);
  }

  lemma ChangedIs(text: File)
    requires Annotation(text).Ok? && Annotation(text).value.changed
    ensures WithResourceType(text.lines).Ok?
    ensures var given := WithResourceType(text.lines).value.0;
            Annotation(text).value
              == Report(File(Normalised(Annotated(given, false)), true), true, Lacking(Blocks(given, false)))
  {
    hide WithResourceType, Normalised, Annotated, Blocks, Lacking;
  }

  lemma GivenKeeps(ls: seq<string>)
    requires WithResourceType(ls).Ok?
    ensures var given := WithResourceType(ls).value.0;
            && HasResourceType(given) && Lacking(Blocks(given, false)) == Lacking(Blocks(ls, false))
            && Woven(NonBlank(ls), NonBlank(given), 0, if HasResourceType(ls) then 0 else 1)
  {
    var (given, added) := WithResourceType(ls).value;
    assert added == !HasResourceType(ls);
    hide *;
    WithResourceTypeHas(ls);
    WithResourceTypeIs(ls);
    if added {
      var i: nat :| HeaderLineAdded(ls, given, i);
      HeaderLineKeeps(ls, given, i);
    } else {
      WovenSelf(NonBlank(given));
    }
  }

  lemma AnnotatedKeeps(given: seq<string>)
    requires HasResourceType(given)
    ensures var out, k := Normalised(Annotated(given, false)), Lacking(Blocks(given, false));
            HasResourceType(out) && Lacking(Blocks(out, false)) == 0 && Woven(NonBlank(given), NonBlank(out), k, 0)
  {
    hide *;
    var mid, k := Annotated(given, false), Lacking(Blocks(given, false));
    var out := Normalised(mid);
    NormalisedBlanks(mid);
    AnnotatedIsWoven(given, false);
    AnnotatedAgain(given, false);
    LackingNonBlank(out, false);
    LackingNonBlank(mid, false);
    SettledMeans(mid, false, MendAll(Blocks(given, false)));
    ResourceTypeNonBlank(given);
    ResourceTypeNonBlank(out);
    ResourceTypeWoven(NonBlank(given), NonBlank(out), k);
  }

  // A file is changed exactly where its header key or a column's line is lacking, and is returned as it was otherwise.
  lemma ChangedExactly(text: File)
    ensures Annotation(text).Ok? <==> WithResourceType(text.lines).Ok?
    ensures var lacking := Lacking(Blocks(text.lines, false));
            Annotation(text).Ok? ==>
            && (Annotation(text).value.changed <==> !HasResourceType(text.lines) || lacking > 0)
            && (!Annotation(text).value.changed ==> Annotation(text).value == Report(text, false, 0))
  {
    if WithResourceType(text.lines).Ok? {
      GivenKeeps(text.lines);
    }
    hide Blocks, Lacking, Annotated, Normalised;
  }

  lemma SettledMeans(out: seq<string>, inColumns: bool, blocks: seq<seq<string>>)
    requires Settled(out, inColumns, blocks)
    ensures Blocks(out, inColumns) == blocks && Annotated(out, inColumns) == out && Lacking(blocks) == 0
  {
  }

  // Annotating an annotated file returns it as it was, with nothing counted.
  lemma AnnotateTwice(text: File)
    requires Annotation(text).Ok?
    ensures var out := Annotation(text).value.file; Annotation(out) == Ok(Report(out, false, 0))
  {
    if Annotation(text).value.changed {
      AnnotatedFile(text);
    }
  }
}
