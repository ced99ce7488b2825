/**
 * The line buffer the Lua exporter renders into, and the layout rules it
 * follows: two spaces per indent level, commas between list entries,
 * quoted strings, and one newline after every line.
 */
module LuaText {

  const BasicIndent: string := "  "

  /** `indent(n)`: n copies of the two-space basic indent. */
  function Indent(n: nat): (s: string)
    ensures |s| == 2 * n
    ensures forall i :: 0 <= i < |s| ==> s[i] == ' '
  {
    if n == 0 then "" else Indent(n - 1) + BasicIndent
  }

  /** Every line prefixed with `Indent(n)`. */
  function Indented(lines: seq<string>, n: nat): (r: seq<string>)
    ensures |r| == |lines|
    ensures forall k :: 0 <= k < |lines| ==> r[k] == Indent(n) + lines[k]
  {
    if lines == [] then []
    else Indented(lines[..|lines| - 1], n) + [Indent(n) + lines[|lines| - 1]]
  }

  /** Every line with its first 2n characters dropped (when it has them). */
  function Unindented(lines: seq<string>, n: nat): (r: seq<string>)
    ensures |r| == |lines|
  {
    if lines == [] then []
    else
      var last := lines[|lines| - 1];
      Unindented(lines[..|lines| - 1], n) + [if 2 * n <= |last| then last[2 * n..] else last]
  }

  /** Indenting loses nothing: the lines can be recovered from the indented ones. */
  lemma {:induction false} UnindentIndented(lines: seq<string>, n: nat)
    ensures Unindented(Indented(lines, n), n) == lines
  {
    if lines != [] {
      var init := lines[..|lines| - 1];
      UnindentIndented(init, n);
      var ind := Indented(lines, n);
      assert ind[..|ind| - 1] == Indented(init, n);
      assert (Indent(n) + lines[|lines| - 1])[2 * n..] == lines[|lines| - 1];
    }
  }

  /** A comma after every line except the last one. */
  function WithCommas(lines: seq<string>): (r: seq<string>)
    ensures |r| == |lines|
    ensures forall k :: 0 <= k < |lines| - 1 ==> r[k] == lines[k] + ","
    ensures lines != [] ==> r[|lines| - 1] == lines[|lines| - 1]
  {
    if |lines| <= 1 then lines
    else [lines[0] + ","] + WithCommas(lines[1..])
  }

  /** A comma after the last line only; the other lines are unchanged. */
  function WithTrailingComma(lines: seq<string>): (r: seq<string>)
    requires lines != []
    ensures |r| == |lines|
    ensures r[..|lines| - 1] == lines[..|lines| - 1]
    ensures r[|lines| - 1] == lines[|lines| - 1] + ","
  {
    lines[..|lines| - 1] + [lines[|lines| - 1] + ","]
  }

  /** A string literal: the value between double quotes. */
  function Quote(s: string): string
  {
    "\"" + s + "\""
  }

  /** `asStrings`: every value turned into a string literal, in order. */
  function Quoted(raw: seq<string>): (r: seq<string>)
    ensures |r| == |raw|
    ensures forall k :: 0 <= k < |raw| ==> r[k] == Quote(raw[k])
  {
    if raw == [] then [] else Quoted(raw[..|raw| - 1]) + [Quote(raw[|raw| - 1])]
  }

  /** Strips the surrounding quotes from every line that has them. */
  function Unquoted(lines: seq<string>): (r: seq<string>)
    ensures |r| == |lines|
  {
    if lines == [] then []
    else
      var last := lines[|lines| - 1];
      Unquoted(lines[..|lines| - 1]) + [if 2 <= |last| then last[1..|last| - 1] else last]
  }

  /** Quoting loses nothing: the values can be recovered from the literals. */
  lemma {:induction false} UnquoteQuoted(raw: seq<string>)
    ensures Unquoted(Quoted(raw)) == raw
  {
    if raw != [] {
      var init := raw[..|raw| - 1];
      UnquoteQuoted(init);
      var q := Quoted(raw);
      assert q[..|q| - 1] == Quoted(init);
      var s := raw[|raw| - 1];
      assert Quote(s)[1..|Quote(s)| - 1] == s;
    }
  }

  /** `toSingleStr`: every line followed by a newline, in order. */
  function Rendered(lines: seq<string>): (text: string)
  {
    if lines == [] then "" else Rendered(lines[..|lines| - 1]) + lines[|lines| - 1] + "\n"
  }

  /** Rendering two buffers one after the other is rendering their concatenation. */
  lemma {:induction false} RenderedAppend(a: seq<string>, b: seq<string>)
    ensures Rendered(a + b) == Rendered(a) + Rendered(b)
  {
    if b != [] {
      var init := b[..|b| - 1];
      RenderedAppend(a, init);
      assert (a + b)[..|a + b| - 1] == a + init;
      assert (a + b)[|a + b| - 1] == b[|b| - 1];
      assert Rendered(b) == Rendered(init) + b[|b| - 1] + "\n";
    } else {
      assert a + b == a;
    }
  }

  /** The length of the text is the total length of the lines plus one newline each. */
  function TotalLength(lines: seq<string>): nat
  {
    if lines == [] then 0 else TotalLength(lines[..|lines| - 1]) + |lines[|lines| - 1]|
  }

  lemma {:induction false} RenderedLength(lines: seq<string>)
    ensures |Rendered(lines)| == TotalLength(lines) + |lines|
  {
    if lines != [] {
      RenderedLength(lines[..|lines| - 1]);
    }
  }

  /** Index of the first newline of `t`, or |t| when there is none. */
  function LineEnd(t: string): (i: nat)
    ensures i <= |t|
    ensures i < |t| ==> t[i] == '\n'
    ensures forall j :: 0 <= j < i ==> t[j] != '\n'
  {
    if t == [] || t[0] == '\n' then 0 else 1 + LineEnd(t[1..])
  }

  /** Cuts a text into the lines its newlines end (a last unterminated piece is a line too). */
  function SplitLines(t: string): seq<string>
    decreases |t|
  {
    if t == [] then []
    else
      var i := LineEnd(t);
      if i == |t| then [t] else [t[..i]] + SplitLines(t[i + 1..])
  }

  /** Rendering a first line and then the rest. */
  lemma RenderedCons(lines: seq<string>)
    requires lines != []
    ensures Rendered(lines) == lines[0] + "\n" + Rendered(lines[1..])
  {
    RenderedAppend([lines[0]], lines[1..]);
    assert [lines[0]] + lines[1..] == lines;
  }

  /**
   * Rendering is invertible when no line holds a newline: splitting the
   * text at its newlines gives the lines back.
   */
  lemma {:induction false} SplitRendered(lines: seq<string>)
    requires forall k :: 0 <= k < |lines| ==> '\n' !in lines[k]
    ensures SplitLines(Rendered(lines)) == lines
  {
    if lines != [] {
      RenderedCons(lines);
      var head, rest := lines[0], Rendered(lines[1..]);
      var t := head + "\n" + rest;
      assert t[|head|] == '\n';
      var i := LineEnd(t);
      assert i == |head|;
      assert t[..i] == head;
      assert t[i + 1..] == rest;
      SplitRendered(lines[1..]);
      assert [lines[0]] + lines[1..] == lines;
    }
  }

  /** `createLuaTable(name, content)`: `name = {`, the content one level deeper, `}`. */
  function LuaTable(name: string, body: seq<string>): (r: seq<string>)
  {
    [name + " = {"] + Indented(body, 1) + ["}"]
  }

  /** The layout of a table: header, each body line indented by two spaces, closing brace. */
  lemma LuaTableLayout(name: string, body: seq<string>)
    ensures |LuaTable(name, body)| == |body| + 2
    ensures LuaTable(name, body)[0] == name + " = {"
    ensures forall k :: 0 <= k < |body| ==> LuaTable(name, body)[k + 1] == "  " + body[k]
    ensures LuaTable(name, body)[|body| + 1] == "}"
  {
    LuaTableEnds(name, body);
    forall k | 0 <= k < |body|
      ensures LuaTable(name, body)[k + 1] == "  " + body[k]
    {
      LuaTableLine(name, body, k);
    }
  }

  /** The first and last lines of a table. */
  lemma LuaTableEnds(name: string, body: seq<string>)
    ensures |LuaTable(name, body)| == |body| + 2
    ensures LuaTable(name, body)[0] == name + " = {"
    ensures LuaTable(name, body)[|body| + 1] == "}"
  {
  }

  /** One body line of a table. */
  lemma LuaTableLine(name: string, body: seq<string>, k: nat)
    requires k < |body|
    ensures |LuaTable(name, body)| == |body| + 2
    ensures LuaTable(name, body)[k + 1] == "  " + body[k]
  {
    assert Indent(1) == "  ";
    assert LuaTable(name, body)[k + 1] == Indented(body, 1)[k];
  }

  /** The body of a table can be read back from its lines. */
  lemma TableBodyRecovered(name: string, body: seq<string>)
    ensures var t := LuaTable(name, body); Unindented(t[1..|t| - 1], 1) == body
  {
    var t := LuaTable(name, body);
    assert t[1..|t| - 1] == Indented(body, 1);
    UnindentIndented(body, 1);
  }

  /** The lines of several blocks, one block after another. */
  function Concat(blocks: seq<seq<string>>): seq<string>
  {
    if blocks == [] then [] else Concat(blocks[..|blocks| - 1]) + blocks[|blocks| - 1]
  }

  /** The total number of lines of several blocks. */
  function LineCount(blocks: seq<seq<string>>): nat
  {
    if blocks == [] then 0 else LineCount(blocks[..|blocks| - 1]) + |blocks[|blocks| - 1]|
  }

  lemma {:induction false} ConcatLength(blocks: seq<seq<string>>)
    ensures |Concat(blocks)| == LineCount(blocks)
  {
    if blocks != [] {
      ConcatLength(blocks[..|blocks| - 1]);
    }
  }

  /** Line j of block i sits at offset LineCount(blocks[..i]) + j of the concatenation. */
  lemma {:induction false} ConcatAt(blocks: seq<seq<string>>, i: nat, j: nat)
    requires i < |blocks| && j < |blocks[i]|
    ensures LineCount(blocks[..i]) + j < |Concat(blocks)|
    ensures Concat(blocks)[LineCount(blocks[..i]) + j] == blocks[i][j]
  {
    var init := blocks[..|blocks| - 1];
    ConcatLength(init);
    ConcatLength(blocks);
    if i == |blocks| - 1 {
      assert blocks[..i] == init;
    } else {
      assert init[..i] == blocks[..i];
      ConcatAt(init, i, j);
    }
  }

  /** No block but possibly the last one is empty: what `mergeWithCommas` needs. */
  predicate NonLastNonEmpty(blocks: seq<seq<string>>)
  {
    forall k :: 0 <= k < |blocks| - 1 ==> blocks[k] != []
  }

  /** The blocks after `mergeWithCommas` has marked them: a trailing comma on every block but the last. */
  function MarkedBlocks(blocks: seq<seq<string>>): (r: seq<seq<string>>)
    requires NonLastNonEmpty(blocks)
    ensures |r| == |blocks|
  {
    seq(|blocks|, k requires 0 <= k < |blocks| =>
      if k < |blocks| - 1 then WithTrailingComma(blocks[k]) else blocks[k])
  }

  /** `mergeWithCommas`: the blocks one after another, a comma closing every block but the last. */
  function Merged(blocks: seq<seq<string>>): seq<string>
    requires NonLastNonEmpty(blocks)
  {
    Concat(MarkedBlocks(blocks))
  }

  lemma MarkedSameCounts(blocks: seq<seq<string>>)
    requires NonLastNonEmpty(blocks)
    ensures LineCount(MarkedBlocks(blocks)) == LineCount(blocks)
  {
    var m := MarkedBlocks(blocks);
    forall i | 0 <= i <= |blocks|
      ensures LineCount(m[..i]) == LineCount(blocks[..i])
    {
      PrefixCounts(m, blocks, i);
    }
    assert m[..|m|] == m && blocks[..|blocks|] == blocks;
  }

  lemma {:induction false} PrefixCounts(a: seq<seq<string>>, b: seq<seq<string>>, i: nat)
    requires |a| == |b| && i <= |a|
    requires forall k :: 0 <= k < |a| ==> |a[k]| == |b[k]|
    ensures LineCount(a[..i]) == LineCount(b[..i])
  {
    if i > 0 {
      PrefixCounts(a, b, i - 1);
      assert a[..i][..i - 1] == a[..i - 1];
      assert b[..i][..i - 1] == b[..i - 1];
    }
  }

  /** Merging neither adds nor drops a line: the count is the sum of the blocks' counts. */
  lemma MergedLength(blocks: seq<seq<string>>)
    requires NonLastNonEmpty(blocks)
    ensures |Merged(blocks)| == LineCount(blocks)
  {
    ConcatLength(MarkedBlocks(blocks));
    MarkedSameCounts(blocks);
  }

  /** Merging nothing gives nothing; merging one block gives that block unchanged. */
  lemma MergedFewBlocks(a: seq<string>)
    ensures Merged([]) == []
    ensures Merged([a]) == a
  {
    assert MarkedBlocks([a]) == [a];
    assert Concat([a]) == Concat([]) + a;
  }

  /**
   * Where each line of each block lands in the merged text: at the block's
   * offset, unchanged, except that the last line of every block but the
   * last gets a comma.
   */
  lemma MergedAt(blocks: seq<seq<string>>, i: nat, j: nat)
    requires NonLastNonEmpty(blocks)
    requires i < |blocks| && j < |blocks[i]|
    ensures LineCount(blocks[..i]) + j < |Merged(blocks)|
    ensures Merged(blocks)[LineCount(blocks[..i]) + j] ==
            if i < |blocks| - 1 && j == |blocks[i]| - 1 then blocks[i][j] + "," else blocks[i][j]
  {
    var m := MarkedBlocks(blocks);
    MarkedLengths(blocks);
    PrefixCounts(m, blocks, i);
    ConcatAt(m, i, j);
    MarkedLine(blocks, i, j);
  }

  lemma MarkedLengths(blocks: seq<seq<string>>)
    requires NonLastNonEmpty(blocks)
    ensures forall k :: 0 <= k < |blocks| ==> |MarkedBlocks(blocks)[k]| == |blocks[k]|
  {
  }

  /** Line j of marked block i: the original line, with a comma if it closes a block but the last. */
  lemma MarkedLine(blocks: seq<seq<string>>, i: nat, j: nat)
    requires NonLastNonEmpty(blocks)
    requires i < |blocks| && j < |blocks[i]|
    ensures j < |MarkedBlocks(blocks)[i]|
    ensures MarkedBlocks(blocks)[i][j] ==
            if i < |blocks| - 1 && j == |blocks[i]| - 1 then blocks[i][j] + "," else blocks[i][j]
  {
    var b := blocks[i];
    if i < |blocks| - 1 {
      var marked := WithTrailingComma(b);
      assert MarkedBlocks(blocks)[i] == marked;
      if j < |b| - 1 {
        assert marked[..|b| - 1][j] == b[..|b| - 1][j];
      }
    } else {
      assert MarkedBlocks(blocks)[i] == b;
    }
  }

  /** The line buffer, changed in place by its methods. */
  class TextLines {
    var lines: seq<string>

    /** Copies the given lines. */
    constructor (rawList: seq<string>)
      ensures lines == rawList
    {
      lines := rawList;
    }

    /** The alternative constructor: a buffer of the values as string literals. */
    static method AsStrings(rawList: seq<string>) returns (t: TextLines)
      ensures fresh(t)
      ensures t.lines == Quoted(rawList)
    {
      var quoted: seq<string> := [];
      for i := 0 to |rawList|
        invariant quoted == Quoted(rawList[..i])
      {
        assert rawList[..i + 1][..i] == rawList[..i];
        quoted := quoted + [Quote(rawList[i])];
      }
      assert rawList[..|rawList|] == rawList;
      t := new TextLines(quoted);
    }

    /** `add`: the other buffer's lines appended (read before the update, so adding a buffer to itself doubles it). */
    method Add(other: TextLines)
      modifies this
      ensures lines == old(lines) + old(other.lines)
    {
      lines := lines + other.lines;
    }

    /** `append`: one more line at the end. */
    method Append(entry: string)
      modifies this
      ensures lines == old(lines) + [entry]
    {
      lines := lines + [entry];
    }

    /** `addCommas`: a comma after every line but the last. */
    method AddCommas()
      modifies this
      ensures lines == WithCommas(old(lines))
    {
      var n := |lines|;
      if n == 0 {
        return;
      }
      for k := 0 to n - 1
        invariant |lines| == n
        invariant forall i :: 0 <= i < k ==> lines[i] == old(lines[i]) + ","
        invariant forall i :: k <= i < n ==> lines[i] == old(lines[i])
      {
        lines := lines[k := lines[k] + ","];
      }
    }

    /** `addIndent(n)`: every line prefixed with n indent levels (one by default). */
    method AddIndent(n: nat := 1)
      modifies this
      ensures lines == Indented(old(lines), n)
    {
      for k := 0 to |lines|
        invariant |lines| == |old(lines)|
        invariant forall i :: 0 <= i < k ==> lines[i] == Indent(n) + old(lines[i])
        invariant forall i :: k <= i < |lines| ==> lines[i] == old(lines[i])
      {
        lines := lines[k := Indent(n) + lines[k]];
      }
    }

    /** `toSingleStr`: the lines joined, each followed by a newline. */
    method ToSingleStr() returns (text: string)
      ensures text == Rendered(lines)
    {
      text := "";
      for i := 0 to |lines|
        invariant text == Rendered(lines[..i])
      {
        assert lines[..i + 1][..i] == lines[..i];
        text := text + lines[i] + "\n";
      }
      assert lines[..|lines|] == lines;
    }
  }
}
