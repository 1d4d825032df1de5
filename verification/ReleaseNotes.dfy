/** Rendering one version's release notes: the line loop against a block grammar. */
module ReleaseNotes {
  import opened Common
  import opened Text

  /** A piece of HTML; the text is not yet rendered inline. */
  datatype Tag = H4(text: string) | P(text: string) | UlOpen | Li(fragments: seq<string>) | UlClose

  /** `^### (.+)$` and `^- (.+)$` on a stripped line. */
  predicate IsHeading(line: string) {
    |line| > 4 && line[..4] == "### "
  }

  predicate IsBullet(line: string) {
    |line| > 2 && line[..2] == "- "
  }

  lemma NotBoth(line: string)
    ensures !(IsHeading(line) && IsBullet(line))
  {
    if IsHeading(line) {
      assert line[0] == line[..4][0];
    }
    if IsBullet(line) {
      assert line[0] == line[..2][0];
    }
  }

  predicate IsPlain(line: string) {
    !IsHeading(line) && !IsBullet(line)
  }

  /** What is left of a line without its marker. */
  function Content(line: string): string {
    if IsHeading(line) then line[4..] else if IsBullet(line) then line[2..] else line
  }

  /** The marker that is cut off, and that something is left. */
  lemma MarkerAndContent(line: string)
    ensures IsHeading(line) <==> exists rest :: rest != "" && line == "### " + rest
    ensures IsBullet(line) <==> exists rest :: rest != "" && line == "- " + rest
    ensures IsHeading(line) ==> line == "### " + Content(line)
    ensures IsBullet(line) ==> line == "- " + Content(line)
    ensures IsPlain(line) ==> line == Content(line)
  {
    NotBoth(line);
    if IsHeading(line) {
      assert line == "### " + line[4..];
    }
    if IsBullet(line) {
      assert line == "- " + line[2..];
    }
  }

  // ---- the grammar -------------------------------------------------------------------

  /** A list's items are their first line and the lines wrapped under it. */
  datatype Block = Heading(text: string) | Paragraph(text: string) | Bullets(items: seq<seq<string>>)

  /** How many plain lines come first. */
  function Plain(lines: seq<string>): (n: nat)
    ensures n <= |lines|
  {
    if lines != [] && IsPlain(lines[0]) then 1 + Plain(lines[1..]) else 0
  }

  /** The items of a list that starts here. */
  function Items(lines: seq<string>): seq<seq<string>> {
    if lines == [] || !IsBullet(lines[0]) then []
    else
      var n := Plain(lines[1..]);
      [[Content(lines[0])] + lines[1..][..n]] + Items(lines[1..][n..])
  }

  /** The lines after a list that starts here. */
  function AfterItems(lines: seq<string>): (rest: seq<string>)
    ensures |rest| <= |lines|
    ensures lines != [] && IsBullet(lines[0]) ==> |rest| < |lines|
  {
    if lines == [] || !IsBullet(lines[0]) then lines else AfterItems(lines[1..][Plain(lines[1..])..])
  }

  /** The blocks of the non-blank lines. */
  function Blocks(lines: seq<string>): seq<Block>
    decreases |lines|
  {
    if lines == [] then []
    else if IsHeading(lines[0]) then [Heading(Content(lines[0]))] + Blocks(lines[1..])
    else if IsBullet(lines[0]) then [Bullets(Items(lines))] + Blocks(AfterItems(lines))
    else [Paragraph(lines[0])] + Blocks(lines[1..])
  }

  function ItemTags(items: seq<seq<string>>): seq<Tag> {
    if items == [] then [] else [Li(items[0])] + ItemTags(items[1..])
  }

  function TagsOf(b: Block): seq<Tag> {
    match b
    case Heading(text) => [H4(text)]
    case Paragraph(text) => [P(text)]
    case Bullets(items) => [UlOpen] + ItemTags(items) + [UlClose]
  }

  function Tags(blocks: seq<Block>): seq<Tag> {
    if blocks == [] then [] else TagsOf(blocks[0]) + Tags(blocks[1..])
  }

  // ---- the loop ----------------------------------------------------------------------

  /** What is still to be written when `current` is the open item and `lines` are to come. */
  function Rest(current: Option<seq<string>>, lines: seq<string>): seq<Tag> {
    match current
    case None => Tags(Blocks(lines))
    case Some(item) =>
      var n := Plain(lines);
      [Li(item + lines[..n])] + ItemTags(Items(lines[n..])) + [UlClose] + Tags(Blocks(AfterItems(lines[n..])))
  }

  lemma TagsCons(b: Block, blocks: seq<Block>)
    ensures Tags([b] + blocks) == TagsOf(b) + Tags(blocks)
  {
    assert ([b] + blocks)[1..] == blocks;
  }

  lemma ItemTagsCons(item: seq<string>, items: seq<seq<string>>)
    ensures ItemTags([item] + items) == [Li(item)] + ItemTags(items)
  {
    assert ([item] + items)[1..] == items;
  }

  /** The item that is open, and the list with it. */
  function Closing(current: Option<seq<string>>): seq<Tag> {
    if current.Some? then [Li(current.value), UlClose] else []
  }

  /** A heading or a bullet ends the item that is open. */
  lemma ItemEnds(item: seq<string>, lines: seq<string>)
    requires lines == [] || !IsPlain(lines[0])
    ensures Rest(Some(item), lines)
         == [Li(item)] + ItemTags(Items(lines)) + [UlClose] + Tags(Blocks(AfterItems(lines)))
  {
    assert Plain(lines) == 0 && lines[0..] == lines;
    assert item + lines[..0] == item;
  }

  lemma HeadingTags(lines: seq<string>)
    requires lines != [] && IsHeading(lines[0])
    ensures Tags(Blocks(lines)) == [H4(Content(lines[0]))] + Tags(Blocks(lines[1..]))
    ensures Items(lines) == [] && AfterItems(lines) == lines
  {
    TagsCons(Heading(Content(lines[0])), Blocks(lines[1..]));
    NotBoth(lines[0]);
  }

  lemma RestHeading(current: Option<seq<string>>, lines: seq<string>)
    requires lines != [] && IsHeading(lines[0])
    ensures Rest(current, lines) == Closing(current) + [H4(Content(lines[0]))] + Rest(None, lines[1..])
  {
    HeadingTags(lines);
    if current.Some? {
      ItemEnds(current.value, lines);
    }
  }

  /** A bullet's own line and those wrapped under it make the item that it opens. */
  lemma ItemOpens(lines: seq<string>)
    requires lines != [] && IsBullet(lines[0])
    ensures ItemTags(Items(lines)) + [UlClose] + Tags(Blocks(AfterItems(lines)))
         == Rest(Some([Content(lines[0])]), lines[1..])
  {
    var n := Plain(lines[1..]);
    ItemTagsCons([Content(lines[0])] + lines[1..][..n], Items(lines[1..][n..]));
  }

  lemma BulletTags(lines: seq<string>)
    requires lines != [] && IsBullet(lines[0])
    ensures Tags(Blocks(lines)) == [UlOpen] + (ItemTags(Items(lines)) + [UlClose] + Tags(Blocks(AfterItems(lines))))
  {
    NotBoth(lines[0]);
    TagsCons(Bullets(Items(lines)), Blocks(AfterItems(lines)));
  }

  lemma RestBullet(current: Option<seq<string>>, lines: seq<string>)
    requires lines != [] && IsBullet(lines[0])
    ensures Rest(current, lines)
         == (if current.Some? then [Li(current.value)] else [UlOpen]) + Rest(Some([Content(lines[0])]), lines[1..])
  {
    ItemOpens(lines);
    if current.Some? {
      ItemEnds(current.value, lines);
      Reassociate(Li(current.value), ItemTags(Items(lines)), [UlClose], Tags(Blocks(AfterItems(lines))));
    } else {
      BulletTags(lines);
    }
  }

  lemma Reassociate(a: Tag, b: seq<Tag>, c: seq<Tag>, d: seq<Tag>)
    ensures [a] + b + c + d == [a] + (b + c + d)
  {
  }

  lemma RestPlain(current: Option<seq<string>>, lines: seq<string>)
    requires lines != [] && IsPlain(lines[0])
    ensures Rest(current, lines)
         == if current.Some? then Rest(Some(current.value + [lines[0]]), lines[1..])
            else [P(lines[0])] + Rest(None, lines[1..])
  {
    if current.Some? {
      var n := Plain(lines[1..]);
      assert lines[n + 1..] == lines[1..][n..];
      assert current.value + [lines[0]] + lines[1..][..n] == current.value + lines[..n + 1];
    } else {
      TagsCons(Paragraph(lines[0]), Blocks(lines[1..]));
    }
  }

  lemma RestEnd(current: Option<seq<string>>)
    ensures Rest(current, []) == Closing(current)
  {
    if current.Some? {
      assert current.value + [] == current.value;
    }
  }

  /** What one non-blank line makes the loop write, and the item it leaves open. */
  function Wrote(current: Option<seq<string>>, line: string): seq<Tag> {
    if IsHeading(line) then Closing(current) + [H4(Content(line))]
    else if IsBullet(line) then (if current.Some? then [Li(current.value)] else [UlOpen])
    else if current.Some? then []
    else [P(line)]
  }

  function NextItem(current: Option<seq<string>>, line: string): Option<seq<string>> {
    if IsHeading(line) then None
    else if IsBullet(line) then Some([Content(line)])
    else if current.Some? then Some(current.value + [line])
    else None
  }

  /** All that the loop writes. */
  function Run(current: Option<seq<string>>, lines: seq<string>): seq<Tag>
    decreases |lines|
  {
    if lines == [] then Closing(current)
    else Wrote(current, lines[0]) + Run(NextItem(current, lines[0]), lines[1..])
  }

  lemma RestStep(current: Option<seq<string>>, lines: seq<string>)
    requires lines != []
    ensures Rest(current, lines) == Wrote(current, lines[0]) + Rest(NextItem(current, lines[0]), lines[1..])
  {
    if IsHeading(lines[0]) {
      RestHeading(current, lines);
    } else if IsBullet(lines[0]) {
      RestBullet(current, lines);
    } else {
      RestPlain(current, lines);
    }
  }

  lemma {:induction false} RunIsRest(current: Option<seq<string>>, lines: seq<string>)
    ensures Run(current, lines) == Rest(current, lines)
    decreases |lines|
  {
    if lines == [] {
      RestEnd(current);
    } else {
      RunIsRest(NextItem(current, lines[0]), lines[1..]);
      RestStep(current, lines);
    }
  }

  method FlushItem(parts: seq<Tag>, current: Option<seq<string>>) returns (after: seq<Tag>)
    ensures after == parts + (if current.Some? then [Li(current.value)] else [])
  {
    after := parts;
    if current.Some? {
      after := after + [Li(current.value)];
    }
  }

  method CloseList(parts: seq<Tag>, inList: bool, current: Option<seq<string>>) returns (after: seq<Tag>)
    requires inList <==> current.Some?
    ensures after == parts + Closing(current)
  {
    after := FlushItem(parts, current);
    if inList {
      after := after + [UlClose];
    }
  }

  /** One non-blank line; a list is open exactly when an item is. */
  method RenderLine(parts: seq<Tag>, inList: bool, current: Option<seq<string>>, line: string)
    returns (after: seq<Tag>, nowInList: bool, next: Option<seq<string>>)
    requires inList <==> current.Some?
    ensures nowInList <==> next.Some?
    ensures after == parts + Wrote(current, line) && next == NextItem(current, line)
  {
    if IsHeading(line) {
      after := CloseList(parts, inList, current);
      return after + [H4(line[4..])], false, None;
    } else if IsBullet(line) {
      after := FlushItem(parts, current);
      if !inList {
        after := after + [UlOpen];
      }
      NotBoth(line);
      return after, true, Some([line[2..]]);
    } else if inList && current.Some? {
      return parts, true, Some(current.value + [line]);
    } else {
      after := CloseList(parts, inList, current);
      return after + [P(line)], false, None;
    }
  }

  /** The loop over raw lines, which skips the blank ones. */
  function RunRaw(current: Option<seq<string>>, lines: seq<string>): seq<Tag>
    decreases |lines|
  {
    if lines == [] then Closing(current)
    else
      var line := Strip(lines[0]);
      if line == "" then RunRaw(current, lines[1..])
      else Wrote(current, line) + RunRaw(NextItem(current, line), lines[1..])
  }

  lemma {:induction false} RunRawIsRun(current: Option<seq<string>>, lines: seq<string>)
    ensures RunRaw(current, lines) == Run(current, Stripped(lines))
    decreases |lines|
  {
    if lines != [] {
      var line, later := Strip(lines[0]), Stripped(lines[1..]);
      if line == "" {
        RunRawIsRun(current, lines[1..]);
        assert Stripped(lines) == later;
      } else {
        RunRawIsRun(NextItem(current, line), lines[1..]);
        assert Stripped(lines) == [line] + later;
        assert ([line] + later)[1..] == later;
      }
    }
  }

  method RenderRawLine(parts: seq<Tag>, inList: bool, current: Option<seq<string>>, ghost lines: seq<string>,
                       raw: string)
    returns (after: seq<Tag>, nowInList: bool, next: Option<seq<string>>)
    requires (inList <==> current.Some?) && lines != [] && lines[0] == raw
    ensures nowInList <==> next.Some?
    ensures after + RunRaw(next, lines[1..]) == parts + RunRaw(current, lines)
  {
    var line := Strip(raw);
    if line == "" {
      return parts, inList, current;
    }
    after, nowInList, next := RenderLine(parts, inList, current, line);
  }

  /** The loop writes the grammar's blocks of the non-blank lines. */
  method Render(lines: seq<string>) returns (parts: seq<Tag>)
    ensures parts == Tags(Blocks(Stripped(lines)))
    ensures LinesBack(parts) == Stripped(lines)
  {
    ReadsBack(Stripped(lines));
    parts := [];
    var inList, current := false, None;
    ghost var all := RunRaw(None, lines);
    for i := 0 to |lines|
      invariant inList <==> current.Some?
      invariant all == parts + RunRaw(current, lines[i..])
    {
      parts, inList, current := RenderRawLine(parts, inList, current, lines[i..], lines[i]);
      assert lines[i..][1..] == lines[i + 1..];
    }
    parts := CloseList(parts, inList, current);
    RunRawIsRun(None, lines);
    RunIsRest(None, Stripped(lines));
  }

  // ---- what the blocks are -----------------------------------------------------------

  /** Every list has an item, every item a first line. */
  ghost predicate Proper(b: Block) {
    b.Bullets? ==> b.items != [] && forall i :: 0 <= i < |b.items| ==> b.items[i] != []
  }

  /** The texts of a block, in order. */
  function Texts(b: Block): seq<string> {
    match b
    case Heading(text) => [text]
    case Paragraph(text) => [text]
    case Bullets(items) => Flat(items)
  }

  function Flat(items: seq<seq<string>>): seq<string> {
    if items == [] then [] else items[0] + Flat(items[1..])
  }

  function AllTexts(blocks: seq<Block>): seq<string> {
    if blocks == [] then [] else Texts(blocks[0]) + AllTexts(blocks[1..])
  }

  function Contents(lines: seq<string>): seq<string> {
    if lines == [] then [] else [Content(lines[0])] + Contents(lines[1..])
  }

  lemma {:induction false} ContentsConcat(a: seq<string>, b: seq<string>)
    ensures Contents(a + b) == Contents(a) + Contents(b)
  {
    if a == [] {
      assert a + b == b;
    } else {
      assert (a + b)[1..] == a[1..] + b;
      ContentsConcat(a[1..], b);
    }
  }

  lemma {:induction false} PlainPrefix(lines: seq<string>)
    ensures Contents(lines[..Plain(lines)]) == lines[..Plain(lines)]
    ensures lines[Plain(lines)..] != [] ==> !IsPlain(lines[Plain(lines)])
  {
    if lines != [] && IsPlain(lines[0]) {
      var n := Plain(lines[1..]);
      PlainPrefix(lines[1..]);
      assert lines[..n + 1][1..] == lines[1..][..n];
      assert lines[..n + 1] == [lines[0]] + lines[1..][..n];
    }
  }

  lemma PlainContents(lines: seq<string>)
    ensures Contents(lines) == lines[..Plain(lines)] + Contents(lines[Plain(lines)..])
    ensures lines[Plain(lines)..] != [] ==> !IsPlain(lines[Plain(lines)])
  {
    var n := Plain(lines);
    PlainPrefix(lines);
    ContentsConcat(lines[..n], lines[n..]);
    assert lines == lines[..n] + lines[n..];
  }

  /** A list takes up its lines whole, and ends at a heading or at the end of the notes. */
  lemma {:induction false} ItemsContents(lines: seq<string>)
    requires lines != [] ==> !IsPlain(lines[0])
    ensures Flat(Items(lines)) + Contents(AfterItems(lines)) == Contents(lines)
    ensures forall i :: 0 <= i < |Items(lines)| ==> Items(lines)[i] != []
    ensures AfterItems(lines) == [] || IsHeading(AfterItems(lines)[0])
    decreases |lines|
  {
    if lines != [] && IsBullet(lines[0]) {
      var n := Plain(lines[1..]);
      PlainContents(lines[1..]);
      ItemsContents(lines[1..][n..]);
      var first := [Content(lines[0])] + lines[1..][..n];
      assert ([first] + Items(lines[1..][n..]))[1..] == Items(lines[1..][n..]);
    }
  }

  /** The blocks hold every non-blank line's content, in order, and nothing else; lists are
      never empty; what follows a list is a heading. */
  lemma {:induction false} BlocksConserve(lines: seq<string>)
    ensures AllTexts(Blocks(lines)) == Contents(lines)
    ensures forall i :: 0 <= i < |Blocks(lines)| ==> Proper(Blocks(lines)[i])
    ensures forall i :: 0 < i < |Blocks(lines)| && Blocks(lines)[i - 1].Bullets? ==> Blocks(lines)[i].Heading?
    decreases |lines|
  {
    if lines != [] {
      var blocks := Blocks(lines);
      NotBoth(lines[0]);
      if IsBullet(lines[0]) {
        ItemsContents(lines);
        BlocksConserve(AfterItems(lines));
        assert blocks[1..] == Blocks(AfterItems(lines));
        assert forall i :: 0 < i < |blocks| ==> blocks[i] == Blocks(AfterItems(lines))[i - 1];
      } else {
        BlocksConserve(lines[1..]);
        assert blocks[1..] == Blocks(lines[1..]);
        assert forall i :: 0 < i < |blocks| ==> blocks[i] == Blocks(lines[1..])[i - 1];
      }
    }
  }

  // ---- what the HTML is --------------------------------------------------------------

  /** Where a reader of the tags is: outside, just inside a list, or inside after an item. */
  datatype Place = Outside | ListOpened | InItems

  function Read(place: Place, tag: Tag): Option<Place> {
    match (place, tag)
    case (Outside, H4(_)) => Some(Outside)
    case (Outside, P(_)) => Some(Outside)
    case (Outside, UlOpen) => Some(ListOpened)
    case (ListOpened, Li(_)) => Some(InItems)
    case (InItems, Li(_)) => Some(InItems)
    case (InItems, UlClose) => Some(Outside)
    case _ => None
  }

  /** The tags are headings, paragraphs and closed lists, not nested, of one item or more. */
  predicate WellNested(place: Place, tags: seq<Tag>)
    decreases |tags|
  {
    if tags == [] then place == Outside
    else Read(place, tags[0]).Some? && WellNested(Read(place, tags[0]).value, tags[1..])
  }

  lemma {:induction false} ItemsNest(items: seq<seq<string>>, place: Place, tags: seq<Tag>)
    requires place == InItems || (place == ListOpened && items != [])
    requires WellNested(Outside, tags)
    ensures WellNested(place, ItemTags(items) + [UlClose] + tags)
  {
    var all := ItemTags(items) + [UlClose] + tags;
    if items == [] {
      assert all[1..] == tags;
    } else {
      ItemsNest(items[1..], InItems, tags);
      assert all[1..] == ItemTags(items[1..]) + [UlClose] + tags;
    }
  }

  lemma TailOf(tag: Tag, tags: seq<Tag>, rest: seq<Tag>)
    ensures ([tag] + tags + rest)[0] == tag && ([tag] + tags + rest)[1..] == tags + rest
  {
  }

  lemma BlockNests(b: Block, rest: seq<Tag>)
    requires Proper(b) && WellNested(Outside, rest)
    ensures WellNested(Outside, TagsOf(b) + rest)
  {
    if b.Bullets? {
      ItemsNest(b.items, ListOpened, rest);
      TailOf(UlOpen, ItemTags(b.items) + [UlClose], rest);
      assert TagsOf(b) == [UlOpen] + (ItemTags(b.items) + [UlClose]);
    } else {
      TailOf(TagsOf(b)[0], [], rest);
    }
  }

  lemma {:induction false} BlocksNest(blocks: seq<Block>)
    requires forall i :: 0 <= i < |blocks| ==> Proper(blocks[i])
    ensures WellNested(Outside, Tags(blocks))
  {
    if blocks != [] {
      BlocksNest(blocks[1..]);
      BlockNests(blocks[0], Tags(blocks[1..]));
    }
  }

  /** Whatever the notes say, the HTML is well nested. */
  lemma NotesNest(lines: seq<string>)
    ensures WellNested(Outside, Tags(Blocks(Stripped(lines))))
  {
    BlocksConserve(Stripped(lines));
    BlocksNest(Blocks(Stripped(lines)));
  }

  // ---- the notes, read back ------------------------------------------------------------

  /** The lines that a tag was written for, markers and all. */
  function LinesOf(tag: Tag): seq<string> {
    match tag
    case H4(text) => ["### " + text]
    case P(text) => [text]
    case Li(fragments) => if fragments == [] then [] else ["- " + fragments[0]] + fragments[1..]
    case _ => []
  }

  function LinesBack(tags: seq<Tag>): seq<string> {
    if tags == [] then [] else LinesOf(tags[0]) + LinesBack(tags[1..])
  }

  lemma {:induction false} LinesBackConcat(a: seq<Tag>, b: seq<Tag>)
    ensures LinesBack(a + b) == LinesBack(a) + LinesBack(b)
  {
    if a == [] {
      assert a + b == b;
    } else {
      assert (a + b)[1..] == a[1..] + b;
      LinesBackConcat(a[1..], b);
    }
  }

  lemma LinesBackOne(tag: Tag)
    ensures LinesBack([tag]) == LinesOf(tag)
  {
    assert [tag][1..] == [];
  }

  lemma ItemReadsBack(line: string, wrapped: seq<string>)
    requires IsBullet(line)
    ensures LinesBack([Li([Content(line)] + wrapped)]) == [line] + wrapped
  {
    MarkerAndContent(line);
    LinesBackOne(Li([Content(line)] + wrapped));
    assert ([Content(line)] + wrapped)[1..] == wrapped;
  }

  lemma ItemsUnfold(lines: seq<string>, wrapped: seq<string>, rest: seq<string>)
    requires lines != [] && IsBullet(lines[0])
    requires wrapped == lines[1..][..Plain(lines[1..])] && rest == lines[1..][Plain(lines[1..])..]
    ensures Items(lines) == [[Content(lines[0])] + wrapped] + Items(rest) && AfterItems(lines) == AfterItems(rest)
  {
  }

  lemma CutInThree(lines: seq<string>, n: nat)
    requires lines != [] && n <= |lines| - 1
    ensures [lines[0]] + lines[1..][..n] + lines[1..][n..] == lines
  {
    assert lines[1..][..n] + lines[1..][n..] == lines[1..];
    assert [lines[0]] + lines[1..] == lines;
  }

  lemma Append3(a: seq<string>, b: seq<string>, c: seq<string>, rest: seq<string>)
    requires b + c == rest
    ensures (a + b) + c == a + rest
  {
  }

  lemma {:induction false} ItemsReadBack(lines: seq<string>)
    ensures LinesBack(ItemTags(Items(lines))) + AfterItems(lines) == lines
    decreases |lines|
  {
    if lines != [] && IsBullet(lines[0]) {
      var wrapped, rest := lines[1..][..Plain(lines[1..])], lines[1..][Plain(lines[1..])..];
      ItemsUnfold(lines, wrapped, rest);
      CutInThree(lines, Plain(lines[1..]));
      ItemsReadBack(rest);
      FirstItemBack(lines[0], wrapped, Items(rest));
      Append3([lines[0]] + wrapped, LinesBack(ItemTags(Items(rest))), AfterItems(rest), rest);
    } else {
      NoItems(lines);
    }
  }

  lemma NoItems(lines: seq<string>)
    requires lines == [] || !IsBullet(lines[0])
    ensures LinesBack(ItemTags(Items(lines))) == [] && AfterItems(lines) == lines
  {
  }

  lemma FirstItemBack(line: string, wrapped: seq<string>, items: seq<seq<string>>)
    requires IsBullet(line)
    ensures LinesBack(ItemTags([[Content(line)] + wrapped] + items))
         == [line] + wrapped + LinesBack(ItemTags(items))
  {
    ItemReadsBack(line, wrapped);
    FirstReadsBack([Content(line)] + wrapped, items);
  }

  lemma FirstReadsBack(item: seq<string>, items: seq<seq<string>>)
    ensures LinesBack(ItemTags([item] + items)) == LinesBack([Li(item)]) + LinesBack(ItemTags(items))
  {
    ItemTagsCons(item, items);
    LinesBackConcat([Li(item)], ItemTags(items));
  }

  lemma ListReadsBack(items: seq<seq<string>>)
    ensures LinesBack(TagsOf(Bullets(items))) == LinesBack(ItemTags(items))
  {
    LinesBackConcat([UlOpen] + ItemTags(items), [UlClose]);
    LinesBackConcat([UlOpen], ItemTags(items));
    NothingBack();
  }

  lemma NothingBack()
    ensures LinesBack([UlOpen]) == [] && LinesBack([UlClose]) == []
  {
    LinesBackOne(UlOpen);
    LinesBackOne(UlClose);
  }

  /** The HTML of any non-blank lines reads back as these lines: nothing is lost, moved or
      given another kind. */
  lemma {:induction false} ReadsBack(lines: seq<string>)
    ensures LinesBack(Tags(Blocks(lines))) == lines
    decreases |lines|
  {
    if lines != [] {
      MarkerAndContent(lines[0]);
      NotBoth(lines[0]);
      if IsBullet(lines[0]) {
        ReadsBack(AfterItems(lines));
        ItemsReadBack(lines);
        ListReadsBack(Items(lines));
        BlockReadsBack(Bullets(Items(lines)), Blocks(AfterItems(lines)));
      } else {
        var b := if IsHeading(lines[0]) then Heading(Content(lines[0])) else Paragraph(lines[0]);
        ReadsBack(lines[1..]);
        BlockReadsBack(b, Blocks(lines[1..]));
        LinesBackOne(TagsOf(b)[0]);
        assert lines == [lines[0]] + lines[1..];
      }
    }
  }

  lemma BlockReadsBack(b: Block, blocks: seq<Block>)
    ensures LinesBack(Tags([b] + blocks)) == LinesBack(TagsOf(b)) + LinesBack(Tags(blocks))
  {
    TagsCons(b, blocks);
    LinesBackConcat(TagsOf(b), Tags(blocks));
  }
}
