/** From blocks to retrieval units with their heading path, and the whole of SplitMarkdown. */
module MarkdownUnits {
  import opened Basics
  import opened TextLines
  import opened MarkdownBlocks
  import opened MarkdownCut
  import opened MarkdownNormalize
  import opened ChunkPacking

  // ----- the heading path -----

  /** A heading at a level deeper than the path goes one step below it; any other replaces its level and all below. */
  function Push(path: seq<string>, h: HeadingLine): (path': seq<string>)
    ensures path' != [] && path'[|path'| - 1] == h.title && |path'| <= h.level
  {
    var level := if h.level > |path| then |path| + 1 else h.level;
    path[..level - 1] + [h.title]
  }

  function Prefix(path: seq<string>): string {
    if path == [] then "" else JoinWith(path, " / ") + "\n"
  }

  datatype Found = Found(units: seq<string>, path: seq<string>)

  /** What one block gives: nothing, a new path, or a unit. */
  function UnitOn(path: seq<string>, raw: string): Found {
    var block := Trim(raw);
    if block == "" then Found([], path)
    else
      match Heading(block)
      case Some(h) => Found([], Push(path, h))
      case None => Found([Prefix(path) + block], path)
  }

  function UnitsFrom(blocks: seq<string>, path: seq<string>): seq<string>
    decreases |blocks|
  {
    if blocks == [] then []
    else UnitOn(path, blocks[0]).units + UnitsFrom(blocks[1..], UnitOn(path, blocks[0]).path)
  }

  /** One turn of the loop over the blocks. */
  method CollectOne(units: seq<string>, headings: seq<string>, raw: string)
    returns (units': seq<string>, headings': seq<string>)
    ensures var found := UnitOn(headings, raw); units' == units + found.units && headings' == found.path
  {
    units', headings' := units, headings;
    var block := Trim(raw);
    if block == "" {
      return;
    }
    var head := Heading(block);
    if head.Some? {
      var level: nat := head.value.level;
      if level > |headings| {
        level := |headings| + 1;
      }
      headings' := headings[..level - 1] + [head.value.title];
      assert headings' == Push(headings, head.value);
      return;
    }
    var prefix := "";
    if |headings| > 0 {
      prefix := JoinWith(headings, " / ") + "\n";
    }
    units' := units + [prefix + block];
  }

  method CollectUnits(blocks: seq<string>) returns (units: seq<string>)
    ensures units == UnitsFrom(blocks, [])
  {
    var headings: seq<string> := [];
    units := [];
    for i := 0 to |blocks|
      invariant units + UnitsFrom(blocks[i..], headings) == UnitsFrom(blocks, [])
    {
      assert blocks[i..][1..] == blocks[i + 1..];
      ghost var found := UnitOn(headings, blocks[i]);
      Assoc(units, found.units, UnitsFrom(blocks[i + 1..], found.path));
      units, headings := CollectOne(units, headings, blocks[i]);
    }
    assert blocks[|blocks|..] == [] && units + [] == units;
  }

  // ----- units are the text blocks, in order -----

  /** What a block is for SplitMarkdown: a heading, or text that becomes a unit. */
  datatype Item = Section(heading: HeadingLine) | Text(text: string)

  function ItemOf(group: seq<string>): Item
    requires group != []
  {
    match Heading(group[0])
    case Some(h) => Section(h)
    case None => Text(Trim(Join(group)))
  }

  /** How many of the items are text. */
  function TextCount(items: seq<Item>): (n: nat)
    ensures n <= |items|
  {
    if items == [] then 0 else (if items[0].Text? then 1 else 0) + TextCount(items[1..])
  }

  function PathNext(path: seq<string>, item: Item): seq<string> {
    match item
    case Section(h) => Push(path, h)
    case Text(_) => path
  }

  /** The path after some items, text leaving it alone. */
  function PathAfter(path: seq<string>, items: seq<Item>): seq<string>
    decreases |items|
  {
    if items == [] then path else PathAfter(PathNext(path, items[0]), items[1..])
  }

  function ItemUnits(items: seq<Item>, path: seq<string>): (units: seq<string>)
    ensures |units| == TextCount(items)
    decreases |items|
  {
    if items == [] then []
    else (if items[0].Text? then [Prefix(path) + items[0].text] else [])
           + ItemUnits(items[1..], PathNext(path, items[0]))
  }

  /** Units can be collected piecewise: all a later piece needs from the earlier one is the path. */
  lemma {:induction false} UnitsAppend(xs: seq<Item>, ys: seq<Item>, path: seq<string>)
    ensures ItemUnits(xs + ys, path) == ItemUnits(xs, path) + ItemUnits(ys, PathAfter(path, xs))
    decreases |xs|
  {
    if xs == [] {
      assert xs + ys == ys;
    } else {
      var next := PathNext(path, xs[0]);
      ConsAppend(xs, ys);
      UnitsAppend(xs[1..], ys, next);
      var first := if xs[0].Text? then [Prefix(path) + xs[0].text] else [];
      Assoc(first, ItemUnits(xs[1..], next), ItemUnits(ys, PathAfter(path, xs)));
    }
  }

  /** Each text item, and nothing else, gives one unit, in order: its text after the path of the headings before it. */
  lemma UnitOfText(items: seq<Item>, i: nat, path: seq<string>)
    requires i < |items| && items[i].Text?
    ensures |ItemUnits(items, path)| == TextCount(items) > TextCount(items[..i])
    ensures ItemUnits(items, path)[TextCount(items[..i])] == Prefix(PathAfter(path, items[..i])) + items[i].text
  {
    var before, after := items[..i], items[i..];
    assert before + after == items && after[0] == items[i];
    UnitsAppend(before, after, path);
    assert ItemUnits(after, PathAfter(path, before))[0] == Prefix(PathAfter(path, before)) + items[i].text;
  }

  /** What BlocksAreSound and HeadingTestIsExact establish about every block of a text. */
  predicate Decided(group: seq<string>) {
    group != [] && Trim(Join(group)) != "" && Heading(Trim(Join(group))) == Heading(group[0])
  }

  predicate AllDecided(groups: seq<seq<string>>) {
    forall i :: 0 <= i < |groups| ==> Decided(groups[i])
  }

  function ItemsOf(groups: seq<seq<string>>): (items: seq<Item>)
    requires AllDecided(groups)
    ensures |items| == |groups| && forall i :: 0 <= i < |groups| ==> items[i] == ItemOf(groups[i])
  {
    seq(|groups|, i requires 0 <= i < |groups| => assert Decided(groups[i]); ItemOf(groups[i]))
  }

  lemma UnitsOfFirst(group: seq<string>, rest: seq<string>, path: seq<string>)
    requires Decided(group)
    ensures UnitsFrom([Join(group)] + rest, path) ==
              (if ItemOf(group).Text? then [Prefix(path) + ItemOf(group).text] else [])
              + UnitsFrom(rest, PathNext(path, ItemOf(group)))
  {
    assert ([Join(group)] + rest)[1..] == rest;
  }

  /** The loop over the joined blocks sees exactly the items. */
  lemma {:induction false} UnitsAreItemUnits(groups: seq<seq<string>>, path: seq<string>)
    requires AllDecided(groups)
    ensures UnitsFrom(JoinAll(groups), path) == ItemUnits(ItemsOf(groups), path)
    decreases |groups|
  {
    if groups != [] {
      var item := ItemsOf(groups)[0];
      assert Decided(groups[0]) && item == ItemOf(groups[0]);
      assert ItemsOf(groups)[1..] == ItemsOf(groups[1..]);
      UnitsAreItemUnits(groups[1..], PathNext(path, item));
      UnitsOfFirst(groups[0], JoinAll(groups[1..]), path);
    }
  }

  lemma BlocksAreDecided(lines: seq<string>)
    requires Lines(lines)
    ensures AllDecided(Blocks(lines))
  {
    BlocksAreSound(lines, Outside, []);
    forall i | 0 <= i < |Blocks(lines)| ensures Decided(Blocks(lines)[i]) {
      assert SoundBlock(Blocks(lines)[i]);
      HeadingTestIsExact(lines, i);
    }
  }

  /** The unit of a block: the block itself, untouched but for white space at its ends, after its heading path. */
  lemma UnitOfBlock(lines: seq<string>, i: nat)
    requires Lines(lines) && i < |Blocks(lines)|
    ensures AllDecided(Blocks(lines))
    ensures var units := UnitsFrom(JoinAll(Blocks(lines)), []);
            var items := ItemsOf(Blocks(lines));
            && |units| == TextCount(items) && (items[i].Section? <==> Heading(Blocks(lines)[i][0]).Some?)
            && (items[i].Text? ==>
                 && TextCount(items[..i]) < |units|
                 && units[TextCount(items[..i])] == Prefix(PathAfter([], items[..i])) + Trim(Join(Blocks(lines)[i])))
  {
    BlocksAreDecided(lines);
    assert Decided(Blocks(lines)[i]);
    UnitsAreItemUnits(Blocks(lines), []);
    if ItemsOf(Blocks(lines))[i].Text? {
      UnitOfText(ItemsOf(Blocks(lines)), i, []);
    }
  }

  lemma {:induction false} UnitsAreNonEmpty(blocks: seq<string>, path: seq<string>)
    ensures forall k :: 0 <= k < |UnitsFrom(blocks, path)| ==> UnitsFrom(blocks, path)[k] != ""
    decreases |blocks|
  {
    if blocks != [] {
      UnitsAreNonEmpty(blocks[1..], UnitOn(path, blocks[0]).path);
    }
  }

  /** The path ends with the nearest heading before the block, and is never deeper than that heading's level. */
  lemma {:induction false} PathEndsWithNearest(path: seq<string>, items: seq<Item>, i: nat)
    requires i < |items| && items[i].Section?
    requires forall k :: i < k < |items| ==> items[k].Text?
    ensures var result := PathAfter(path, items);
            result != [] && result[|result| - 1] == items[i].heading.title && |result| <= items[i].heading.level
    decreases |items|
  {
    if i > 0 {
      PathEndsWithNearest(PathNext(path, items[0]), items[1..], i - 1);
    } else {
      TextKeepsPath(PathNext(path, items[0]), items[1..]);
    }
  }

  lemma {:induction false} TextKeepsPath(path: seq<string>, items: seq<Item>)
    requires forall k :: 0 <= k < |items| ==> items[k].Text?
    ensures PathAfter(path, items) == path
    decreases |items|
  {
    if items != [] {
      TextKeepsPath(path, items[1..]);
    }
  }

  // ----- the whole -----

  function UnitsOf(text: string): seq<string> {
    var units := UnitsFrom(JoinAll(Blocks(Split(text))), []);
    if units == [] then [text] else units
  }

  method SplitMarkdown(content: string) returns (chunks: seq<string>)
    ensures NormalText(content) == "" ==> chunks == []
    ensures NormalText(content) != "" ==>
              var units := UnitsOf(NormalText(content));
              AllInRange(Groups(units), |units|) && chunks == RenderAll(units, Groups(units))
  {
    var normalized := NormalizeMarkdown(content);
    if normalized == "" {
      return [];
    }
    var blocks := CutBlocks(normalized);
    var units := CollectUnits(blocks);
    UnitsAreNonEmpty(blocks, []);
    if |units| == 0 && normalized != "" {
      units := [normalized];
    }
    chunks := Pack(units);
  }

  /**
   What every caller of SplitMarkdown gets, for any article: no empty chunk, none over 800 runes, the chunks
   tile the units, no two neighbouring packed chunks would have fitted into one, and the units come back whole.
   */
  lemma ChunksOfText(text: string)
    requires text != ""
    ensures var units := UnitsOf(text);
            && Tiles(Groups(units), 0, |units|) && Maximal(units, Groups(units))
            && (forall k :: 0 <= k < |RenderAll(units, Groups(units))| ==> Sized(RenderAll(units, Groups(units))[k]))
            && JoinWith(Meanings(units, Groups(units)), GAP) == JoinWith(units, GAP)
  {
    var units := UnitsOf(text);
    UnitsAreNonEmpty(JoinAll(Blocks(Split(text))), []);
    GroupsTile(units, 0, 0);
    GroupsAreMaximal(units, 0, 0);
    ChunksAreSized(units, Groups(units));
    PackingIsLossless(units, Groups(units), 0);
    assert units[0..|units|] == units;
  }
}
