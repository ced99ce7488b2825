/**
 * The Lua planet database: one table per exported campaign, one table per
 * planet inside it, and in each a `ConnectedTo` list of quoted neighbour
 * names.
 */
module LuaDatabase {
  import opened Galaxy
  import opened LuaText
  import opened Connectivity

  /** The lines of several buffers. */
  function LinesOf(ts: seq<TextLines>): (r: seq<seq<string>>)
    reads ts
    ensures |r| == |ts|
    ensures forall k :: 0 <= k < |ts| ==> r[k] == ts[k].lines
  {
    if ts == [] then [] else LinesOf(ts[..|ts| - 1]) + [ts[|ts| - 1].lines]
  }

  /** How many blocks `mergeWithCommas` closes with a comma before it stops: all but the last, or up to the first empty one. */
  function ClosedCount(blocks: seq<seq<string>>): (m: nat)
    ensures blocks == [] ==> m == 0
    ensures blocks != [] ==> m <= |blocks| - 1
    ensures forall k :: 0 <= k < m ==> blocks[k] != []
    ensures blocks != [] && m < |blocks| - 1 ==> blocks[m] == []
  {
    if |blocks| <= 1 || blocks[0] == [] then 0 else 1 + ClosedCount(blocks[1..])
  }

  /** ClosedCount is pinned down by where the first empty block is. */
  lemma {:induction false} ClosedCountIs(blocks: seq<seq<string>>, k: nat)
    requires k < |blocks|
    requires forall i :: 0 <= i < k ==> blocks[i] != []
    requires k == |blocks| - 1 || blocks[k] == []
    ensures ClosedCount(blocks) == k
  {
    if k > 0 {
      ClosedCountIs(blocks[1..], k - 1);
    }
  }

  lemma ConcatSnoc(blocks: seq<seq<string>>, b: seq<string>)
    ensures Concat(blocks + [b]) == Concat(blocks) + b
  {
    assert (blocks + [b])[..|blocks|] == blocks;
  }

  /** The lines `res` holds after the first k blocks were closed and added. */
  function ClosedPrefix(blocks: seq<seq<string>>, k: nat): seq<string>
    requires k <= |blocks|
    requires forall i :: 0 <= i < k ==> blocks[i] != []
  {
    if k == 0 then [] else ClosedPrefix(blocks, k - 1) + WithTrailingComma(blocks[k - 1])
  }

  /** The closed prefix is the concatenation of the first k blocks, each closed with a comma. */
  lemma {:induction false} ClosedPrefixConcat(blocks: seq<seq<string>>, closedBlocks: seq<seq<string>>, k: nat)
    requires k <= |blocks| && k <= |closedBlocks|
    requires forall i :: 0 <= i < k ==> blocks[i] != []
    requires forall i :: 0 <= i < k ==> closedBlocks[i] == WithTrailingComma(blocks[i])
    ensures ClosedPrefix(blocks, k) == Concat(closedBlocks[..k])
  {
    if k > 0 {
      ClosedPrefixConcat(blocks, closedBlocks, k - 1);
      assert closedBlocks[..k] == closedBlocks[..k - 1] + [closedBlocks[k - 1]];
      ConcatSnoc(closedBlocks[..k - 1], closedBlocks[k - 1]);
    }
  }

  lemma MergedAsClosed(blocks: seq<seq<string>>)
    requires blocks != [] && NonLastNonEmpty(blocks)
    ensures Merged(blocks) == Concat(MarkedBlocks(blocks)[..|blocks| - 1]) + blocks[|blocks| - 1]
  {
    var n := |blocks|;
    var m := MarkedBlocks(blocks);
    assert m[n - 1] == blocks[n - 1];
  }

  /** The merge is the comma-closed prefix the loop builds, followed by the last block. */
  lemma MergedIsClosedPrefix(blocks: seq<seq<string>>)
    requires blocks != [] && NonLastNonEmpty(blocks)
    ensures Merged(blocks) == ClosedPrefix(blocks, |blocks| - 1) + blocks[|blocks| - 1]
  {
    var n := |blocks|;
    var m := MarkedBlocks(blocks);
    forall i | 0 <= i < n - 1
      ensures m[i] == WithTrailingComma(blocks[i])
    {
    }
    ClosedPrefixConcat(blocks, m, n - 1);
    MergedAsClosed(blocks);
  }

  /** `createLuaTable`: indents the content in place and wraps it as `name = { ... }`. */
  method CreateLuaTable(name: string, content: TextLines) returns (table: TextLines)
    modifies content
    ensures fresh(table)
    ensures content.lines == Indented(old(content.lines), 1)
    ensures table.lines == LuaTable(name, old(content.lines))
  {
    content.AddIndent();
    table := new TextLines([name + " = {"]);
    table.Add(content);
    table.Append("}");
  }

  /** No buffer occurs twice. */
  ghost predicate Distinct(ts: seq<TextLines>)
  {
    ts == [] || (Distinct(ts[..|ts| - 1]) && ts[|ts| - 1] !in ts[..|ts| - 1])
  }

  /** In a list without repeats, buffer k is none of the others. */
  lemma {:induction false} DistinctApart(ts: seq<TextLines>, k: nat, i: nat)
    requires Distinct(ts) && k < |ts| && i < |ts| && i != k
    ensures ts[i] != ts[k]
  {
    var init := ts[..|ts| - 1];
    if i < |ts| - 1 && k < |ts| - 1 {
      DistinctApart(init, k, i);
    } else if i < k {
      assert ts[i] == init[i];
    } else {
      assert ts[k] == init[k];
    }
  }

  /** The buffers after the first k of them were closed with a comma; `before` holds their original lines. */
  ghost predicate ClosedUpTo(ts: seq<TextLines>, before: seq<seq<string>>, k: nat)
    reads ts
  {
    |before| == |ts| && k <= |ts| &&
    (forall i :: 0 <= i < k ==> before[i] != []) &&
    (forall i {:trigger ts[i]} :: 0 <= i < k ==> ts[i].lines == WithTrailingComma(before[i])) &&
    (forall i {:trigger ts[i]} :: k <= i < |ts| ==> ts[i].lines == before[i])
  }

  /** One round of `mergeWithCommas`'s loop: a comma after the last line of buffer k, then buffer k added to `res`. */
  method CloseNext(ts: seq<TextLines>, k: nat, res: TextLines, ghost before: seq<seq<string>>)
    requires ClosedUpTo(ts, before, k)
    requires k < |ts| && ts[k].lines != []
    requires Distinct(ts)
    requires res !in ts
    requires res.lines == ClosedPrefix(before, k)
    modifies ts[k], res
    ensures ClosedUpTo(ts, before, k + 1)
    ensures res.lines == ClosedPrefix(before, k + 1)
  {
    var t := ts[k];
    forall i | 0 <= i < |ts| && i != k
      ensures ts[i] != t
    {
      DistinctApart(ts, k, i);
    }
    t.lines := t.lines[|t.lines| - 1 := t.lines[|t.lines| - 1] + ","];
    res.Add(t);
  }

  /**
   * The loop of `mergeWithCommas`: appends a comma to the last line of each
   * buffer but the last, in order, and adds each to `res`; it stops at the
   * first empty buffer, where `lines[-1]` raises IndexError. `closed` is
   * the number of buffers it changed.
   */
  method CloseLeading(textLineObjects: seq<TextLines>, res: TextLines, ghost before: seq<seq<string>>)
    returns (closed: nat)
    requires textLineObjects != []
    requires Distinct(textLineObjects)
    requires res !in textLineObjects && res.lines == []
    requires ClosedUpTo(textLineObjects, before, 0)
    modifies textLineObjects, res
    ensures ClosedUpTo(textLineObjects, before, closed)
    ensures closed < |textLineObjects| && (closed == |textLineObjects| - 1 || before[closed] == [])
    ensures res.lines == ClosedPrefix(before, closed)
  {
    var n := |textLineObjects|;
    closed := 0;
    while closed < n - 1 && textLineObjects[closed].lines != []
      invariant closed <= n - 1
      invariant ClosedUpTo(textLineObjects, before, closed)
      invariant res.lines == ClosedPrefix(before, closed)
      decreases n - closed
    {
      CloseNext(textLineObjects, closed, res, before);
      closed := closed + 1;
    }
    ClosedUpToRest(textLineObjects, before, closed);
  }

  /** A buffer not yet closed still holds its original lines. */
  lemma ClosedUpToRest(ts: seq<TextLines>, before: seq<seq<string>>, k: nat)
    requires ClosedUpTo(ts, before, k) && k < |ts|
    ensures ts[k].lines == before[k]
  {
  }

  /**
   * `mergeWithCommas`: appends a comma to the last line of every buffer
   * but the last (changing those buffers) and concatenates them all into a
   * new buffer. An empty buffer before the last one makes `lines[-1]` raise
   * IndexError: `ok` is false then, and the buffers before it have already
   * been changed.
   */
  method MergeWithCommas(textLineObjects: seq<TextLines>) returns (res: TextLines, ok: bool)
    requires Distinct(textLineObjects)
    modifies textLineObjects
    ensures fresh(res)
    ensures ok <==> NonLastNonEmpty(old(LinesOf(textLineObjects)))
    ensures ok ==> res.lines == Merged(old(LinesOf(textLineObjects)))
    ensures ClosedUpTo(textLineObjects, old(LinesOf(textLineObjects)), ClosedCount(old(LinesOf(textLineObjects))))
  {
    ghost var before := LinesOf(textLineObjects);
    res := new TextLines([]);
    var n := |textLineObjects|;
    if n < 1 {
      return res, true;
    }
    var closed := CloseLeading(textLineObjects, res, before);
    ClosedCountIs(before, closed);
    if closed < n - 1 {
      ok := false;  // IndexError
    } else {
      AddLast(textLineObjects, res, before);
      ok := true;
    }
  }

  /** The last step of `mergeWithCommas`: the last buffer, unchanged, completes the merge. */
  method AddLast(ts: seq<TextLines>, res: TextLines, ghost before: seq<seq<string>>)
    requires ts != [] && res !in ts
    requires ClosedUpTo(ts, before, |ts| - 1)
    requires res.lines == ClosedPrefix(before, |ts| - 1)
    modifies res
    ensures ClosedUpTo(ts, before, |ts| - 1)
    ensures res.lines == Merged(before)
  {
    ClosedUpToRest(ts, before, |ts| - 1);
    MergedIsClosedPrefix(before);
    res.Add(ts[|ts| - 1]);
  }

  /** A planet's table: its name around a `ConnectedTo` list of quoted, comma-separated neighbours. */
  function PlanetData(name: string, neighbours: seq<string>): seq<string>
  {
    LuaTable(name, LuaTable("ConnectedTo", WithCommas(Quoted(neighbours))))
  }

  /**
   * The exact lines of a planet's table: header, `ConnectedTo` header one
   * level in, one quoted neighbour per line two levels in with a comma
   * after every one but the last, and the two closing braces.
   */
  lemma PlanetDataLayout(name: string, neighbours: seq<string>)
    ensures |PlanetData(name, neighbours)| == |neighbours| + 4
    ensures PlanetData(name, neighbours)[0] == name + " = {"
    ensures PlanetData(name, neighbours)[1] == "  ConnectedTo = {"
    ensures forall k :: 0 <= k < |neighbours| ==>
              PlanetData(name, neighbours)[k + 2] == "    " + ListItem(neighbours, k)
    ensures PlanetData(name, neighbours)[|neighbours| + 2] == "  }"
    ensures PlanetData(name, neighbours)[|neighbours| + 3] == "}"
  {
    PlanetDataHead(name, neighbours);
    PlanetDataTail(name, neighbours);
    forall k | 0 <= k < |neighbours|
      ensures PlanetData(name, neighbours)[k + 2] == "    " + ListItem(neighbours, k)
    {
      PlanetDataLine(name, neighbours, k);
    }
  }

  lemma PlanetDataHead(name: string, neighbours: seq<string>)
    ensures |PlanetData(name, neighbours)| == |neighbours| + 4
    ensures PlanetData(name, neighbours)[0] == name + " = {"
    ensures PlanetData(name, neighbours)[1] == "  ConnectedTo = {"
  {
    assert "  " + "ConnectedTo = {" == "  ConnectedTo = {";
    var inner := LuaTable("ConnectedTo", WithCommas(Quoted(neighbours)));
    assert |inner| == |neighbours| + 2 && inner[0] == "ConnectedTo = {" by {
      LuaTableEnds("ConnectedTo", WithCommas(Quoted(neighbours)));
    }
    assert PlanetData(name, neighbours) == LuaTable(name, inner);
    LuaTableLine(name, inner, 0);
    LuaTableEnds(name, inner);
  }

  lemma PlanetDataTail(name: string, neighbours: seq<string>)
    ensures |PlanetData(name, neighbours)| == |neighbours| + 4
    ensures PlanetData(name, neighbours)[|neighbours| + 2] == "  }"
    ensures PlanetData(name, neighbours)[|neighbours| + 3] == "}"
  {
    var inner := LuaTable("ConnectedTo", WithCommas(Quoted(neighbours)));
    assert |inner| == |neighbours| + 2 && inner[|neighbours| + 1] == "}" by {
      LuaTableEnds("ConnectedTo", WithCommas(Quoted(neighbours)));
    }
    LuaTableLine(name, inner, |neighbours| + 1);
    LuaTableEnds(name, inner);
  }

  lemma PlanetDataLine(name: string, neighbours: seq<string>, k: nat)
    requires k < |neighbours|
    ensures |PlanetData(name, neighbours)| == |neighbours| + 4
    ensures PlanetData(name, neighbours)[k + 2] == "    " + ListItem(neighbours, k)
  {
    assert "  " + ("  " + ListItem(neighbours, k)) == "    " + ListItem(neighbours, k);
    var items := WithCommas(Quoted(neighbours));
    var inner := LuaTable("ConnectedTo", items);
    ItemLine(neighbours, k);
    LuaTableLine("ConnectedTo", items, k);
    LuaTableLine(name, inner, k + 1);
  }

  /** Entry k of a `ConnectedTo` list: the quoted name, followed by a comma unless it is the last. */
  function ListItem(neighbours: seq<string>, k: nat): string
    requires k < |neighbours|
  {
    Quote(neighbours[k]) + if k < |neighbours| - 1 then "," else ""
  }

  lemma ItemLine(neighbours: seq<string>, k: nat)
    requires k < |neighbours|
    ensures WithCommas(Quoted(neighbours))[k] == ListItem(neighbours, k)
  {
    if k < |neighbours| - 1 {
      assert WithCommas(Quoted(neighbours))[k] == Quoted(neighbours)[k] + ",";
    } else {
      assert Quoted(neighbours)[k] + "" == Quoted(neighbours)[k];
    }
  }

  /** The positions of the planets that are not ignored, in increasing order. */
  function Exported(planets: seq<Planet>, ignore: seq<string>): (r: seq<nat>)
    ensures |r| <= |planets|
  {
    if planets == [] then []
    else
      var n := |planets| - 1;
      Exported(planets[..n], ignore) + if planets[n].name in ignore then [] else [n]
  }

  /** Every exported position holds a planet that is not ignored. */
  lemma {:induction false} ExportedSound(planets: seq<Planet>, ignore: seq<string>, k: nat)
    requires k < |Exported(planets, ignore)|
    ensures Exported(planets, ignore)[k] < |planets| && planets[Exported(planets, ignore)[k]].name !in ignore
  {
    var n := |planets| - 1;
    if k < |Exported(planets[..n], ignore)| {
      ExportedSound(planets[..n], ignore, k);
    }
  }

  /** The exported positions are in increasing order. */
  lemma {:induction false} ExportedIncreasing(planets: seq<Planet>, ignore: seq<string>, k: nat, j: nat)
    requires k < j < |Exported(planets, ignore)|
    ensures Exported(planets, ignore)[k] < Exported(planets, ignore)[j]
  {
    var n := |planets| - 1;
    if j < |Exported(planets[..n], ignore)| {
      ExportedIncreasing(planets[..n], ignore, k, j);
    } else {
      ExportedSound(planets[..n], ignore, k);
    }
  }

  /** Every planet that is not ignored is exported. */
  lemma {:induction false} ExportedComplete(planets: seq<Planet>, ignore: seq<string>, j: nat)
    requires j < |planets| && planets[j].name !in ignore
    ensures j in Exported(planets, ignore)
  {
    var n := |planets| - 1;
    if j < n {
      ExportedComplete(planets[..n], ignore, j);
    }
  }

  /**
   * The planet tables of a campaign whose planets have the neighbour lists
   * `conns`: one per planet that is not ignored, in order.
   */
  function PlanetBlocks(planets: seq<Planet>, conns: seq<seq<string>>, ignore: seq<string>): (r: seq<seq<string>>)
    requires |planets| == |conns|
    ensures |r| <= |planets|
  {
    if planets == [] then []
    else
      var n := |planets| - 1;
      PlanetBlocks(planets[..n], conns[..n], ignore) +
        if planets[n].name in ignore then [] else [PlanetData(planets[n].name, conns[n])]
  }

  /** There is one planet table per exported planet. */
  lemma {:induction false} PlanetBlocksCount(planets: seq<Planet>, conns: seq<seq<string>>, ignore: seq<string>)
    requires |planets| == |conns|
    ensures |PlanetBlocks(planets, conns, ignore)| == |Exported(planets, ignore)|
  {
    if planets != [] {
      var n := |planets| - 1;
      PlanetBlocksCount(planets[..n], conns[..n], ignore);
    }
  }

  /** Every planet table has at least its header and its closing brace. */
  lemma {:induction false} PlanetBlocksNonEmpty(planets: seq<Planet>, conns: seq<seq<string>>, ignore: seq<string>)
    requires |planets| == |conns|
    ensures forall k :: 0 <= k < |PlanetBlocks(planets, conns, ignore)| ==> |PlanetBlocks(planets, conns, ignore)[k]| >= 2
  {
    if planets != [] {
      var n := |planets| - 1;
      PlanetBlocksNonEmpty(planets[..n], conns[..n], ignore);
    }
  }

  /** The k-th planet table of a campaign belongs to the k-th exported planet. */
  lemma {:induction false} PlanetBlocksAt(planets: seq<Planet>, conns: seq<seq<string>>, ignore: seq<string>, k: nat)
    requires |planets| == |conns| && k < |PlanetBlocks(planets, conns, ignore)|
    ensures k < |Exported(planets, ignore)| && Exported(planets, ignore)[k] < |planets| &&
            PlanetBlocks(planets, conns, ignore)[k] ==
              PlanetData(planets[Exported(planets, ignore)[k]].name, conns[Exported(planets, ignore)[k]])
  {
    var n := |planets| - 1;
    var blocks := PlanetBlocks(planets[..n], conns[..n], ignore);
    var exported := Exported(planets[..n], ignore);
    PlanetBlocksCount(planets[..n], conns[..n], ignore);
    if planets[n].name in ignore {
      assert PlanetBlocks(planets, conns, ignore) == blocks;
      assert Exported(planets, ignore) == exported;
    } else {
      assert PlanetBlocks(planets, conns, ignore) == blocks + [PlanetData(planets[n].name, conns[n])];
      assert Exported(planets, ignore) == exported + [n];
    }
    if k < |blocks| {
      PlanetBlocksAt(planets[..n], conns[..n], ignore, k);
      var e := exported[k];
      assert planets[..n][e] == planets[e] && conns[..n][e] == conns[e];
      assert Exported(planets, ignore)[k] == e && PlanetBlocks(planets, conns, ignore)[k] == blocks[k];
    } else {
      assert Exported(planets, ignore)[k] == n;
    }
  }

  /** One more planet adds its table at the end, unless it is ignored. */
  lemma PlanetBlocksStep(planets: seq<Planet>, conns: seq<seq<string>>, ignore: seq<string>, i: nat)
    requires |planets| == |conns| && i < |planets|
    ensures PlanetBlocks(planets[..i + 1], conns[..i + 1], ignore) ==
            PlanetBlocks(planets[..i], conns[..i], ignore) +
              if planets[i].name in ignore then [] else [PlanetData(planets[i].name, conns[i])]
  {
    assert planets[..i + 1][..i] == planets[..i];
    assert conns[..i + 1][..i] == conns[..i];
  }

  /** The neighbour lists of `planets`, as `getConnections` computes them in the current state. */
  function AllConnections(planets: seq<Planet>, allPlanets: seq<Planet>, routes: seq<TradeRoute>, cfg: ExportConfig)
    : (r: seq<seq<string>>)
    reads planets, allPlanets
    ensures |r| == |planets|
  {
    seq(|planets|, k requires 0 <= k < |planets| reads planets, allPlanets => Connections(planets[k], allPlanets, routes, cfg))
  }

  /** `createCampaignSpecificTable`: the campaign's planet tables, comma-separated, inside one named table. */
  function CampaignTable(campaignName: string, allPlanets: seq<Planet>, allTradeRoutes: seq<TradeRoute>, cfg: ExportConfig)
    : seq<string>
    reads allPlanets
  {
    var blocks := PlanetBlocks(allPlanets, AllConnections(allPlanets, allPlanets, allTradeRoutes, cfg), cfg.ignore);
    PlanetBlocksNonEmpty(allPlanets, AllConnections(allPlanets, allPlanets, allTradeRoutes, cfg), cfg.ignore);
    LuaTable(campaignName, Merged(blocks))
  }

  /** `createPlanetData`: the planet's table with its connections as a quoted, comma-separated list. */
  method CreatePlanetData(planet: Planet, allPlanets: seq<Planet>, allTradeRoutes: seq<TradeRoute>, cfg: ExportConfig)
    returns (data: TextLines)
    ensures fresh(data)
    ensures data.lines == PlanetData(planet.name, old(Connections(planet, allPlanets, allTradeRoutes, cfg)))
  {
    var connections := GetConnections(planet, allPlanets, allTradeRoutes, cfg);
    var listContent := TextLines.AsStrings(connections);
    listContent.AddCommas();
    var connectionList := CreateLuaTable("ConnectedTo", listContent);
    data := CreateLuaTable(planet.name, connectionList);
  }

  lemma DistinctSnoc(ts: seq<TextLines>, t: TextLines)
    requires Distinct(ts) && t !in ts
    ensures Distinct(ts + [t])
  {
    assert (ts + [t])[..|ts|] == ts;
  }

  lemma LinesOfSnoc(ts: seq<TextLines>, t: TextLines)
    ensures LinesOf(ts + [t]) == LinesOf(ts) + [t.lines]
  {
    assert (ts + [t])[..|ts|] == ts;
  }

  /** `createPlanetData` for planet `i`: creating the table leaves the neighbour lists `conns` as they are. */
  method CreatePlanetDataAt(i: nat, allPlanets: seq<Planet>, allTradeRoutes: seq<TradeRoute>, cfg: ExportConfig,
                            ghost conns: seq<seq<string>>)
    returns (data: TextLines)
    requires i < |allPlanets| && conns == AllConnections(allPlanets, allPlanets, allTradeRoutes, cfg)
    ensures conns == AllConnections(allPlanets, allPlanets, allTradeRoutes, cfg)
    ensures fresh(data) && data.lines == PlanetData(allPlanets[i].name, conns[i])
  {
    data := CreatePlanetData(allPlanets[i], allPlanets, allTradeRoutes, cfg);
  }

  /** Appends the table of planet `i` to `content`, whose lines are `blocks`. */
  method AppendExported(content: seq<TextLines>, i: nat, allPlanets: seq<Planet>, allTradeRoutes: seq<TradeRoute>,
                        cfg: ExportConfig, ghost conns: seq<seq<string>>, ghost blocks: seq<seq<string>>)
    returns (next: seq<TextLines>)
    requires i < |allPlanets| && conns == AllConnections(allPlanets, allPlanets, allTradeRoutes, cfg)
    requires Distinct(content) && LinesOf(content) == blocks
    ensures conns == AllConnections(allPlanets, allPlanets, allTradeRoutes, cfg)
    ensures Distinct(next) && LinesOf(next) == blocks + [PlanetData(allPlanets[i].name, conns[i])]
    ensures forall t :: t in next ==> t in content || fresh(t)
  {
    var data := CreatePlanetDataAt(i, allPlanets, allTradeRoutes, cfg, conns);
    assert LinesOf(content) == blocks;
    DistinctSnoc(content, data);
    LinesOfSnoc(content, data);
    next := content + [data];
  }

  /**
   * The body of `createCampaignSpecificTable`'s loop: the table of planet
   * `i` is appended unless the planet is ignored. `conns` are the neighbour
   * lists of the campaign's planets, which creating the table leaves as
   * they are.
   */
  method AppendPlanetData(content: seq<TextLines>, i: nat, allPlanets: seq<Planet>, allTradeRoutes: seq<TradeRoute>,
                          cfg: ExportConfig, ghost conns: seq<seq<string>>)
    returns (next: seq<TextLines>)
    requires i < |allPlanets| && conns == AllConnections(allPlanets, allPlanets, allTradeRoutes, cfg)
    requires Distinct(content) && LinesOf(content) == PlanetBlocks(allPlanets[..i], conns[..i], cfg.ignore)
    ensures conns == AllConnections(allPlanets, allPlanets, allTradeRoutes, cfg)
    ensures Distinct(next) && LinesOf(next) == PlanetBlocks(allPlanets[..i + 1], conns[..i + 1], cfg.ignore)
    ensures forall t :: t in next ==> t in content || fresh(t)
  {
    PlanetBlocksStep(allPlanets, conns, cfg.ignore, i);
    if allPlanets[i].name !in cfg.ignore {
      next := AppendExported(content, i, allPlanets, allTradeRoutes, cfg, conns, PlanetBlocks(allPlanets[..i], conns[..i], cfg.ignore));
    } else {
      next := content;
    }
  }

  /** The loop of `createCampaignSpecificTable`: a new buffer with the table of each planet that is not ignored. */
  method CollectPlanetData(allPlanets: seq<Planet>, allTradeRoutes: seq<TradeRoute>, cfg: ExportConfig)
    returns (content: seq<TextLines>)
    ensures forall t :: t in content ==> fresh(t)
    ensures Distinct(content)
    ensures LinesOf(content) ==
            PlanetBlocks(allPlanets[..|allPlanets|], old(AllConnections(allPlanets, allPlanets, allTradeRoutes, cfg))[..|allPlanets|], cfg.ignore)
  {
    ghost var conns := AllConnections(allPlanets, allPlanets, allTradeRoutes, cfg);
    assert conns == old(AllConnections(allPlanets, allPlanets, allTradeRoutes, cfg));
    content := [];
    for i := 0 to |allPlanets|
      invariant forall t :: t in content ==> fresh(t)
      invariant conns == AllConnections(allPlanets, allPlanets, allTradeRoutes, cfg)
      invariant Distinct(content) && LinesOf(content) == PlanetBlocks(allPlanets[..i], conns[..i], cfg.ignore)
    {
      content := AppendPlanetData(content, i, allPlanets, allTradeRoutes, cfg, conns);
    }
  }

  /**
   * `createCampaignSpecificTable`: one planet table per planet that is not
   * ignored, comma-separated, inside a table named after the campaign.
   */
  method CreateCampaignSpecificTable(campaignName: string, allPlanets: seq<Planet>, allTradeRoutes: seq<TradeRoute>,
                                     cfg: ExportConfig)
    returns (table: TextLines)
    ensures fresh(table)
    ensures table.lines == old(CampaignTable(campaignName, allPlanets, allTradeRoutes, cfg))
  {
    ghost var conns := AllConnections(allPlanets, allPlanets, allTradeRoutes, cfg);
    var content := CollectPlanetData(allPlanets, allTradeRoutes, cfg);
    assert allPlanets[..|allPlanets|] == allPlanets && conns[..|allPlanets|] == conns;
    PlanetBlocksNonEmpty(allPlanets, conns, cfg.ignore);
    assert forall k :: 0 <= k < |content| ==> content[k] in content;
    var merged, ok := MergeWithCommas(content);
    table := CreateLuaTable(campaignName, merged);
  }

  /** The positions of the campaigns that have an alias, in increasing order. */
  function Aliased(campaigns: seq<Campaign>, cfg: ExportConfig): (r: seq<nat>)
    ensures |r| <= |campaigns|
  {
    if campaigns == [] then []
    else
      var n := |campaigns| - 1;
      Aliased(campaigns[..n], cfg) + if campaigns[n].name in cfg.campaignAliases then [n] else []
  }

  /** Every aliased position holds a campaign with an alias. */
  lemma {:induction false} AliasedSound(campaigns: seq<Campaign>, cfg: ExportConfig, k: nat)
    requires k < |Aliased(campaigns, cfg)|
    ensures Aliased(campaigns, cfg)[k] < |campaigns| && campaigns[Aliased(campaigns, cfg)[k]].name in cfg.campaignAliases
  {
    var n := |campaigns| - 1;
    if k < |Aliased(campaigns[..n], cfg)| {
      AliasedSound(campaigns[..n], cfg, k);
    }
  }

  /** Every campaign with an alias gets a table. */
  lemma {:induction false} AliasedComplete(campaigns: seq<Campaign>, cfg: ExportConfig, j: nat)
    requires j < |campaigns| && campaigns[j].name in cfg.campaignAliases
    ensures j in Aliased(campaigns, cfg)
  {
    var n := |campaigns| - 1;
    if j < n {
      AliasedComplete(campaigns[..n], cfg, j);
    }
  }

  /** The aliased positions are in increasing order, so the campaign tables keep the campaigns' order. */
  lemma {:induction false} AliasedIncreasing(campaigns: seq<Campaign>, cfg: ExportConfig, k: nat, j: nat)
    requires k < j < |Aliased(campaigns, cfg)|
    ensures Aliased(campaigns, cfg)[k] < Aliased(campaigns, cfg)[j]
  {
    var n := |campaigns| - 1;
    if j < |Aliased(campaigns[..n], cfg)| {
      AliasedIncreasing(campaigns[..n], cfg, k, j);
    } else {
      AliasedSound(campaigns[..n], cfg, k);
    }
  }

  /** The planets of some campaign. */
  ghost function CampaignPlanets(campaigns: seq<Campaign>): set<Planet>
  {
    set c, p | c in campaigns && p in c.planets :: p
  }

  /** The table a campaign gets under its alias; empty for a campaign without one. */
  function AliasTable(c: Campaign, cfg: ExportConfig): seq<string>
    reads c.planets
  {
    if c.name in cfg.campaignAliases then CampaignTable(cfg.campaignAliases[c.name], c.planets, c.tradeRoutes, cfg) else []
  }

  /** The table of each campaign, as `createCampaignSpecificTable` computes it in the current state. */
  function AllCampaignTables(campaigns: seq<Campaign>, cfg: ExportConfig): (r: seq<seq<string>>)
    reads CampaignPlanets(campaigns)
    ensures |r| == |campaigns|
  {
    seq(|campaigns|, k requires 0 <= k < |campaigns| reads CampaignPlanets(campaigns) =>
      assert forall p :: p in campaigns[k].planets ==> p in CampaignPlanets(campaigns);
      AliasTable(campaigns[k], cfg))
  }

  /** The campaign tables of the database: one per campaign with an alias, in order. */
  function DatabaseBlocks(campaigns: seq<Campaign>, tables: seq<seq<string>>, cfg: ExportConfig): (r: seq<seq<string>>)
    requires |campaigns| == |tables|
    ensures |r| <= |campaigns|
  {
    if campaigns == [] then []
    else
      var n := |campaigns| - 1;
      DatabaseBlocks(campaigns[..n], tables[..n], cfg) + if campaigns[n].name in cfg.campaignAliases then [tables[n]] else []
  }

  /** The k-th campaign table of the database belongs to the k-th campaign with an alias. */
  lemma {:induction false} DatabaseBlocksAt(campaigns: seq<Campaign>, tables: seq<seq<string>>, cfg: ExportConfig, k: nat)
    requires |campaigns| == |tables| && k < |DatabaseBlocks(campaigns, tables, cfg)|
    ensures |DatabaseBlocks(campaigns, tables, cfg)| == |Aliased(campaigns, cfg)|
    ensures Aliased(campaigns, cfg)[k] < |campaigns| &&
            DatabaseBlocks(campaigns, tables, cfg)[k] == tables[Aliased(campaigns, cfg)[k]]
  {
    var n := |campaigns| - 1;
    DatabaseBlocksCount(campaigns, tables, cfg);
    DatabaseBlocksCount(campaigns[..n], tables[..n], cfg);
    if k < |DatabaseBlocks(campaigns[..n], tables[..n], cfg)| {
      DatabaseBlocksAt(campaigns[..n], tables[..n], cfg, k);
    }
  }

  lemma {:induction false} DatabaseBlocksCount(campaigns: seq<Campaign>, tables: seq<seq<string>>, cfg: ExportConfig)
    requires |campaigns| == |tables|
    ensures |DatabaseBlocks(campaigns, tables, cfg)| == |Aliased(campaigns, cfg)|
  {
    if campaigns != [] {
      var n := |campaigns| - 1;
      DatabaseBlocksCount(campaigns[..n], tables[..n], cfg);
    }
  }

  /** Campaign tables of at least two lines make a database that `mergeWithCommas` can merge. */
  lemma {:induction false} DatabaseBlocksNonEmpty(campaigns: seq<Campaign>, tables: seq<seq<string>>, cfg: ExportConfig)
    requires |campaigns| == |tables|
    requires forall k :: 0 <= k < |campaigns| && campaigns[k].name in cfg.campaignAliases ==> |tables[k]| >= 2
    ensures forall k :: 0 <= k < |DatabaseBlocks(campaigns, tables, cfg)| ==> |DatabaseBlocks(campaigns, tables, cfg)[k]| >= 2
  {
    if campaigns != [] {
      var n := |campaigns| - 1;
      DatabaseBlocksNonEmpty(campaigns[..n], tables[..n], cfg);
    }
  }

  /** One more campaign adds its table at the end, if it has an alias. */
  lemma DatabaseBlocksStep(campaigns: seq<Campaign>, tables: seq<seq<string>>, cfg: ExportConfig, i: nat)
    requires |campaigns| == |tables| && i < |campaigns|
    ensures DatabaseBlocks(campaigns[..i + 1], tables[..i + 1], cfg) ==
            DatabaseBlocks(campaigns[..i], tables[..i], cfg) +
              if campaigns[i].name in cfg.campaignAliases then [tables[i]] else []
  {
    assert campaigns[..i + 1][..i] == campaigns[..i];
    assert tables[..i + 1][..i] == tables[..i];
  }

  /** Every campaign table has at least its header and its closing brace. */
  lemma AllCampaignTablesNonEmpty(campaigns: seq<Campaign>, cfg: ExportConfig, k: nat)
    requires k < |campaigns| && campaigns[k].name in cfg.campaignAliases
    ensures |AllCampaignTables(campaigns, cfg)[k]| >= 2
  {
    var c := campaigns[k];
    var blocks := PlanetBlocks(c.planets, AllConnections(c.planets, c.planets, c.tradeRoutes, cfg), cfg.ignore);
    PlanetBlocksNonEmpty(c.planets, AllConnections(c.planets, c.planets, c.tradeRoutes, cfg), cfg.ignore);
    LuaTableEnds(cfg.campaignAliases[c.name], Merged(blocks));
  }

  /** `createPlanetDatabaseTable`: the campaign tables, comma-separated, inside the `PlanetDataBase` table. */
  function DatabaseTable(repository: Repository, cfg: ExportConfig): seq<string>
    reads CampaignPlanets(repository.campaigns)
  {
    var campaigns := repository.campaigns;
    var tables := AllCampaignTables(campaigns, cfg);
    assert forall k :: 0 <= k < |campaigns| && campaigns[k].name in cfg.campaignAliases ==> |tables[k]| >= 2 by {
      forall k | 0 <= k < |campaigns| && campaigns[k].name in cfg.campaignAliases {
        AllCampaignTablesNonEmpty(campaigns, cfg, k);
      }
    }
    DatabaseBlocksNonEmpty(campaigns, tables, cfg);
    LuaTable("PlanetDataBase", Merged(DatabaseBlocks(campaigns, tables, cfg)))
  }

  /** `createCampaignSpecificTable` for campaign `i`, which has an alias: creating the table leaves the tables `snap` as they are. */
  method CreateCampaignTableAt(i: nat, campaigns: seq<Campaign>, cfg: ExportConfig, ghost snap: seq<seq<string>>)
    returns (table: TextLines)
    requires i < |campaigns| && campaigns[i].name in cfg.campaignAliases
    requires snap == AllCampaignTables(campaigns, cfg)
    ensures snap == AllCampaignTables(campaigns, cfg)
    ensures fresh(table) && table.lines == snap[i]
  {
    var campaign := campaigns[i];
    var campaignAlias := cfg.campaignAliases[campaign.name];
    table := CreateCampaignSpecificTable(campaignAlias, campaign.planets, campaign.tradeRoutes, cfg);
  }

  /** Appends the table of campaign `i` to `tables`, whose lines are `blocks`. */
  method AppendAliased(tables: seq<TextLines>, i: nat, campaigns: seq<Campaign>, cfg: ExportConfig,
                       ghost snap: seq<seq<string>>, ghost blocks: seq<seq<string>>)
    returns (next: seq<TextLines>)
    requires i < |campaigns| && campaigns[i].name in cfg.campaignAliases
    requires snap == AllCampaignTables(campaigns, cfg)
    requires Distinct(tables) && LinesOf(tables) == blocks
    ensures snap == AllCampaignTables(campaigns, cfg)
    ensures Distinct(next) && LinesOf(next) == blocks + [snap[i]]
    ensures forall t :: t in next ==> t in tables || fresh(t)
  {
    var t := CreateCampaignTableAt(i, campaigns, cfg, snap);
    DistinctSnoc(tables, t);
    LinesOfSnoc(tables, t);
    next := tables + [t];
  }

  /** The body of `createPlanetDatabaseTable`'s loop: the table of campaign `i` is appended if the campaign has an alias. */
  method AppendCampaignTable(tables: seq<TextLines>, i: nat, campaigns: seq<Campaign>, cfg: ExportConfig,
                             ghost snap: seq<seq<string>>)
    returns (next: seq<TextLines>)
    requires i < |campaigns| && snap == AllCampaignTables(campaigns, cfg)
    requires Distinct(tables) && LinesOf(tables) == DatabaseBlocks(campaigns[..i], snap[..i], cfg)
    ensures snap == AllCampaignTables(campaigns, cfg)
    ensures Distinct(next) && LinesOf(next) == DatabaseBlocks(campaigns[..i + 1], snap[..i + 1], cfg)
    ensures forall t :: t in next ==> t in tables || fresh(t)
  {
    DatabaseBlocksStep(campaigns, snap, cfg, i);
    if campaigns[i].name in cfg.campaignAliases {
      next := AppendAliased(tables, i, campaigns, cfg, snap, DatabaseBlocks(campaigns[..i], snap[..i], cfg));
    } else {
      next := tables;  // KeyError: the campaign is skipped
    }
  }

  /** The loop of `createPlanetDatabaseTable`: a new buffer with the table of each campaign that has an alias. */
  method CollectCampaignTables(campaigns: seq<Campaign>, cfg: ExportConfig) returns (tables: seq<TextLines>)
    ensures forall t :: t in tables ==> fresh(t)
    ensures Distinct(tables)
    ensures LinesOf(tables) ==
            DatabaseBlocks(campaigns[..|campaigns|], old(AllCampaignTables(campaigns, cfg))[..|campaigns|], cfg)
  {
    ghost var snap := AllCampaignTables(campaigns, cfg);
    tables := [];
    for i := 0 to |campaigns|
      invariant forall t :: t in tables ==> fresh(t)
      invariant snap == AllCampaignTables(campaigns, cfg)
      invariant Distinct(tables) && LinesOf(tables) == DatabaseBlocks(campaigns[..i], snap[..i], cfg)
    {
      tables := AppendCampaignTable(tables, i, campaigns, cfg, snap);
    }
  }

  /** `createPlanetDatabaseTable`: one table per campaign with an alias, comma-separated, inside the `PlanetDataBase` table. */
  method CreatePlanetDatabaseTable(repository: Repository, cfg: ExportConfig) returns (table: TextLines)
    ensures fresh(table)
    ensures table.lines == old(DatabaseTable(repository, cfg))
  {
    var campaigns := repository.campaigns;
    ghost var snap := AllCampaignTables(campaigns, cfg);
    var campaignTables := CollectCampaignTables(campaigns, cfg);
    assert campaigns[..|campaigns|] == campaigns && snap[..|campaigns|] == snap;
    forall k | 0 <= k < |campaigns| && campaigns[k].name in cfg.campaignAliases
      ensures |snap[k]| >= 2
    {
      AllCampaignTablesNonEmpty(campaigns, cfg, k);
    }
    DatabaseBlocksNonEmpty(campaigns, snap, cfg);
    assert forall k :: 0 <= k < |campaignTables| ==> campaignTables[k] in campaignTables;
    var merged, ok := MergeWithCommas(campaignTables);
    table := CreateLuaTable("PlanetDataBase", merged);
  }
}
