/**
 The page document shared by the two services: canonical snapshots, references, and the
 hydration that puts descriptors and file names back.
 */
module Documents {
  import opened Wrappers
  import opened Text

  /** A value below `any` is never looked into by the modelled code. */
  datatype Json = Json(text: string)

  /** Nil and empty maps are one value: `cloneMap` collapses them. */
  type JsonMap = map<string, Json>

  datatype Embed = Embed(
    tableId: string,
    title: string,
    displayConfig: JsonMap,
    previewState: string,
    schema: JsonMap,
    previewRows: seq<JsonMap>)

  datatype PageLink = PageLink(pageId: string, title: string, kind: string)

  datatype Attachment = Attachment(fileId: string, blockId: string, filename: string)

  datatype Block = Block(
    id: string,
    kind: string,
    text: string,
    attrs: JsonMap,
    embed: Option<Embed>,
    link: Option<PageLink>,
    attachment: Option<Attachment>)

  datatype Document = Document(blocks: seq<Block>, metadata: JsonMap)

  const PREVIEW_DEGRADED := "degraded"
  const DEFAULT_LINK_KIND := "page_ref"

  // ---------------------------------------------------------------- snapshots and views

  /** What a comparison of two documents ignores: live previews, attachment file names. */
  datatype Lens = Lens(dropPreviews: bool, dropFilenames: bool)

  /** What the page service stores. */
  const CANONICAL := Lens(true, false)

  /** What both services agree on: the stored snapshot without attachment file names. */
  const SHARED := Lens(true, true)

  function NormEmbed(l: Lens, e: Embed): Embed {
    if l.dropPreviews then Embed(e.tableId, e.title, e.displayConfig, "", map[], []) else e
  }

  function NormBlock(l: Lens, b: Block): Block {
    b.(embed := if b.embed.Some? then Some(NormEmbed(l, b.embed.value)) else None,
       attachment := if b.attachment.Some? && l.dropFilenames
                     then Some(b.attachment.value.(filename := "")) else b.attachment)
  }

  function NormBlocks(l: Lens, bs: seq<Block>): (r: seq<Block>)
    ensures |r| == |bs|
    ensures forall i :: 0 <= i < |bs| ==> r[i] == NormBlock(l, bs[i])
  {
    seq(|bs|, i requires 0 <= i < |bs| => NormBlock(l, bs[i]))
  }

  function Norm(l: Lens, d: Document): Document {
    Document(NormBlocks(l, d.blocks), d.metadata)
  }

  function Canonical(d: Document): Document {
    Norm(CANONICAL, d)
  }

  function View(d: Document): Document {
    Norm(SHARED, d)
  }

  /** `CanonicalSnapshot`: copies block by block, rebuilding each embed without its preview. */
  method CanonicalSnapshot(d: Document) returns (c: Document)
    ensures c == Canonical(d)
  {
    var blocks := [];
    for i := 0 to |d.blocks|
      invariant |blocks| == i
      invariant forall k :: 0 <= k < i ==> blocks[k] == NormBlock(CANONICAL, d.blocks[k])
    {
      var canonical := d.blocks[i];
      if canonical.embed.Some? {
        var e := canonical.embed.value;
        canonical := canonical.(embed := Some(Embed(e.tableId, e.title, e.displayConfig, "", map[], [])));
      }
      blocks := blocks + [canonical];
    }
    c := Document(blocks, d.metadata);
  }

  /** A lens that drops more absorbs one that drops less, on either side. */
  lemma NormAbsorbs(l: Lens, m: Lens, d: Document)
    requires m.dropPreviews ==> l.dropPreviews
    requires m.dropFilenames ==> l.dropFilenames
    ensures Norm(l, Norm(m, d)) == Norm(l, d)
    ensures Norm(m, Norm(l, d)) == Norm(l, d)
  {
  }

  /** The blocks differ in a live preview at most. */
  predicate SameButPreview(b: Block, c: Block) {
    && b.id == c.id && b.kind == c.kind && b.text == c.text && b.attrs == c.attrs && b.link == c.link
    && b.attachment == c.attachment && b.embed.Some? == c.embed.Some?
    && (b.embed.Some? ==>
          && b.embed.value.tableId == c.embed.value.tableId && b.embed.value.title == c.embed.value.title
          && b.embed.value.displayConfig == c.embed.value.displayConfig)
  }

  /** Or in the name of an attached file. */
  predicate SameButNames(b: Block, c: Block) {
    && b.attachment.Some? == c.attachment.Some?
    && (b.attachment.Some? ==>
          b.attachment.value.fileId == c.attachment.value.fileId && b.attachment.value.blockId == c.attachment.value.blockId)
    && SameButPreview(b, c.(attachment := b.attachment))
  }

  lemma SameBlockSnapshot(b: Block, c: Block)
    ensures NormBlock(CANONICAL, b) == NormBlock(CANONICAL, c) <==> SameButPreview(b, c)
    ensures NormBlock(SHARED, b) == NormBlock(SHARED, c) <==> SameButNames(b, c)
  {
  }

  lemma SameNormBlocks(l: Lens, bs: seq<Block>, cs: seq<Block>)
    ensures NormBlocks(l, bs) == NormBlocks(l, cs)
            <==> |bs| == |cs| && forall i :: 0 <= i < |bs| ==> NormBlock(l, bs[i]) == NormBlock(l, cs[i])
  {
  }

  /** Two documents have one stored snapshot exactly if they differ in live previews only. */
  lemma SameSnapshotIff(d: Document, e: Document)
    ensures Canonical(d) == Canonical(e)
            <==> d.metadata == e.metadata && |d.blocks| == |e.blocks|
                 && forall i :: 0 <= i < |d.blocks| ==> SameButPreview(d.blocks[i], e.blocks[i])
  {
    SameNormBlocks(CANONICAL, d.blocks, e.blocks);
    forall i | 0 <= i < |d.blocks| && i < |e.blocks|
      ensures NormBlock(CANONICAL, d.blocks[i]) == NormBlock(CANONICAL, e.blocks[i]) <==> SameButPreview(d.blocks[i], e.blocks[i])
    {
      SameBlockSnapshot(d.blocks[i], e.blocks[i]);
    }
  }

  /** And one view exactly if they differ in these and in file names only. */
  lemma SameViewIff(d: Document, e: Document)
    ensures View(d) == View(e)
            <==> d.metadata == e.metadata && |d.blocks| == |e.blocks|
                 && forall i :: 0 <= i < |d.blocks| ==> SameButNames(d.blocks[i], e.blocks[i])
  {
    SameNormBlocks(SHARED, d.blocks, e.blocks);
    forall i | 0 <= i < |d.blocks| && i < |e.blocks|
      ensures NormBlock(SHARED, d.blocks[i]) == NormBlock(SHARED, e.blocks[i]) <==> SameButNames(d.blocks[i], e.blocks[i])
    {
      SameBlockSnapshot(d.blocks[i], e.blocks[i]);
    }
  }

  /** The snapshot is the document without live previews. */
  lemma SnapshotMeans(d: Document)
    ensures var c := Canonical(d);
            && c.metadata == d.metadata && |c.blocks| == |d.blocks|
            && forall i :: 0 <= i < |d.blocks| ==>
                 && SameButPreview(d.blocks[i], c.blocks[i])
                 && (c.blocks[i].embed.Some? ==>
                       var e := c.blocks[i].embed.value; e.previewState == "" && e.schema == map[] && e.previewRows == [])
  {
    NormAbsorbs(CANONICAL, CANONICAL, d);
    SameSnapshotIff(d, Canonical(d));
  }

  // ----------------------------------------------------------------------- block lookup

  /** Index of the first block with that id, or |bs|. */
  function Find(bs: seq<Block>, id: string): (i: nat)
    ensures i <= |bs|
    ensures i < |bs| ==> bs[i].id == id
    ensures forall k :: 0 <= k < i ==> bs[k].id != id
  {
    if bs == [] then 0
    else if bs[0].id == id then 0
    else 1 + Find(bs[1..], id)
  }

  predicate Has(bs: seq<Block>, id: string) {
    Find(bs, id) < |bs|
  }

  predicate DistinctIds(bs: seq<Block>) {
    forall i, j :: 0 <= i < j < |bs| ==> bs[i].id != bs[j].id
  }

  /** Title of the first block with that id that carries an embed. */
  function EmbedTitle(bs: seq<Block>, id: string): string {
    if bs == [] then ""
    else if bs[0].id == id && bs[0].embed.Some? then bs[0].embed.value.title
    else EmbedTitle(bs[1..], id)
  }

  /** `EmbedTitleByBlockID`. */
  method EmbedTitleByBlockId(bs: seq<Block>, id: string) returns (title: string)
    ensures title == EmbedTitle(bs, id)
  {
    for i := 0 to |bs|
      invariant EmbedTitle(bs, id) == EmbedTitle(bs[i..], id)
    {
      if bs[i].id == id && bs[i].embed.Some? {
        return bs[i].embed.value.title;
      }
    }
    return "";
  }

  lemma {:induction false} EmbedTitleIsFirst(bs: seq<Block>, id: string, k: nat) returns (j: nat)
    requires k < |bs| && bs[k].id == id && bs[k].embed.Some?
    ensures j <= k && bs[j].id == id && bs[j].embed.Some?
    ensures EmbedTitle(bs, id) == bs[j].embed.value.title
    decreases |bs|
  {
    if bs[0].id == id && bs[0].embed.Some? {
      j := 0;
    } else {
      j := EmbedTitleIsFirst(bs[1..], id, k - 1);
      j := j + 1;
    }
  }

  /** Title of the first block with that id that carries a page link. */
  function LinkTitle(bs: seq<Block>, id: string): string {
    if bs == [] then ""
    else if bs[0].id == id && bs[0].link.Some? then bs[0].link.value.title
    else LinkTitle(bs[1..], id)
  }

  lemma {:induction false} LinkTitleIsFirst(bs: seq<Block>, id: string, k: nat) returns (j: nat)
    requires k < |bs| && bs[k].id == id && bs[k].link.Some?
    ensures j <= k && bs[j].id == id && bs[j].link.Some?
    ensures LinkTitle(bs, id) == bs[j].link.value.title
    decreases |bs|
  {
    if bs[0].id == id && bs[0].link.Some? {
      j := 0;
    } else {
      j := LinkTitleIsFirst(bs[1..], id, k - 1);
      j := j + 1;
    }
  }

  /** Without such a block there is no title. */
  lemma {:induction false} NoTitle(bs: seq<Block>, id: string)
    ensures (forall k :: 0 <= k < |bs| ==> bs[k].id != id || bs[k].embed.None?) ==> EmbedTitle(bs, id) == ""
    ensures (forall k :: 0 <= k < |bs| ==> bs[k].id != id || bs[k].link.None?) ==> LinkTitle(bs, id) == ""
    decreases |bs|
  {
    if bs != [] {
      NoTitle(bs[1..], id);
    }
  }

  // ------------------------------------------------------------------------- references

  datatype EmbedRef = EmbedRef(
    revisionId: string, pageId: string, blockId: string, tableId: string,
    displayConfig: JsonMap, createdAt: int)

  datatype AttachmentRef = AttachmentRef(
    revisionId: string, pageId: string, blockId: string, fileId: string, createdAt: int)

  datatype LinkRef = LinkRef(
    revisionId: string, sourcePageId: string, targetPageId: string, blockId: string,
    kind: string, createdAt: int)

  datatype References = References(embeds: seq<EmbedRef>, attachments: seq<AttachmentRef>, links: seq<LinkRef>)

  /** Who extracts, for which revision, and when. */
  datatype Origin = Origin(pageId: string, revisionId: string, at: int)

  predicate HasTable(b: Block) {
    b.embed.Some? && b.embed.value.tableId != ""
  }

  function BlockReferences(b: Block, o: Origin): References {
    References(
      if HasTable(b)
      then [EmbedRef(o.revisionId, o.pageId, b.id, b.embed.value.tableId, b.embed.value.displayConfig, o.at)]
      else [],
      if b.attachment.Some? && b.attachment.value.fileId != ""
      then [AttachmentRef(o.revisionId, o.pageId, b.id, b.attachment.value.fileId, o.at)]
      else [],
      if b.link.Some? && b.link.value.pageId != ""
      then [LinkRef(o.revisionId, o.pageId, b.link.value.pageId, b.id,
                    if b.link.value.kind != "" then b.link.value.kind else DEFAULT_LINK_KIND, o.at)]
      else [])
  }

  function Append(r: References, s: References): References {
    References(r.embeds + s.embeds, r.attachments + s.attachments, r.links + s.links)
  }

  /** The references of the first n blocks, in block order. */
  function ReferencesOfFirst(bs: seq<Block>, n: nat, o: Origin): References
    requires n <= |bs|
  {
    if n == 0 then References([], [], [])
    else Append(ReferencesOfFirst(bs, n - 1, o), BlockReferences(bs[n - 1], o))
  }

  function ReferencesOf(bs: seq<Block>, o: Origin): References {
    ReferencesOfFirst(bs, |bs|, o)
  }

  predicate EmbedsTable(b: Block, o: Origin, e: EmbedRef) {
    HasTable(b) && e == EmbedRef(o.revisionId, o.pageId, b.id, b.embed.value.tableId, b.embed.value.displayConfig, o.at)
  }

  predicate CarriesFile(b: Block, o: Origin, a: AttachmentRef) {
    && b.attachment.Some? && b.attachment.value.fileId != ""
    && a == AttachmentRef(o.revisionId, o.pageId, b.id, b.attachment.value.fileId, o.at)
  }

  predicate LinksPage(b: Block, o: Origin, l: LinkRef) {
    && b.link.Some? && b.link.value.pageId != ""
    && l == LinkRef(o.revisionId, o.pageId, b.link.value.pageId, b.id,
                    if b.link.value.kind != "" then b.link.value.kind else DEFAULT_LINK_KIND, o.at)
  }

  /** The embedded tables of a document: one for each block that embeds a table, and no other. */
  lemma {:induction false} EmbedsAreExact(bs: seq<Block>, n: nat, o: Origin, x: EmbedRef)
    requires n <= |bs|
    ensures x in ReferencesOfFirst(bs, n, o).embeds <==> exists i :: 0 <= i < n && EmbedsTable(bs[i], o, x)
    decreases n
  {
    if n > 0 {
      EmbedsAreExact(bs, n - 1, o, x);
      assert x in BlockReferences(bs[n - 1], o).embeds <==> EmbedsTable(bs[n - 1], o, x);
    }
  }

  /** Likewise its attachments. */
  lemma {:induction false} AttachmentsAreExact(bs: seq<Block>, n: nat, o: Origin, x: AttachmentRef)
    requires n <= |bs|
    ensures x in ReferencesOfFirst(bs, n, o).attachments <==> exists i :: 0 <= i < n && CarriesFile(bs[i], o, x)
    decreases n
  {
    if n > 0 {
      AttachmentsAreExact(bs, n - 1, o, x);
      assert x in BlockReferences(bs[n - 1], o).attachments <==> CarriesFile(bs[n - 1], o, x);
    }
  }

  /** Likewise its page links, which get a default kind. */
  lemma {:induction false} LinksAreExact(bs: seq<Block>, n: nat, o: Origin, x: LinkRef)
    requires n <= |bs|
    ensures x in ReferencesOfFirst(bs, n, o).links <==> exists i :: 0 <= i < n && LinksPage(bs[i], o, x)
    decreases n
  {
    if n > 0 {
      LinksAreExact(bs, n - 1, o, x);
      assert x in BlockReferences(bs[n - 1], o).links <==> LinksPage(bs[n - 1], o, x);
    }
  }

  /** References come in block order, and each block contributes its own once. */
  lemma {:induction false} ReferencesConcat(bs: seq<Block>, cs: seq<Block>, o: Origin)
    ensures ReferencesOf(bs + cs, o) == Append(ReferencesOf(bs, o), ReferencesOf(cs, o))
    decreases |cs|
  {
    if cs == [] {
      NoBlocks(bs, cs, o);
    } else {
      var n := |cs| - 1;
      ReferencesConcat(bs, cs[..n], o);
      LastBlockJoins(bs, cs[..n], cs[n], cs, o);
    }
  }

  lemma NoBlocks(bs: seq<Block>, cs: seq<Block>, o: Origin)
    requires cs == []
    ensures ReferencesOf(bs + cs, o) == Append(ReferencesOf(bs, o), ReferencesOf(cs, o))
  {
    assert bs + cs == bs;
    var r := ReferencesOf(bs, o);
    assert r.embeds + [] == r.embeds && r.attachments + [] == r.attachments && r.links + [] == r.links;
  }

  lemma LastBlockJoins(bs: seq<Block>, cs: seq<Block>, b: Block, more: seq<Block>, o: Origin)
    requires ReferencesOf(bs + cs, o) == Append(ReferencesOf(bs, o), ReferencesOf(cs, o)) && more == cs + [b]
    ensures ReferencesOf(bs + more, o) == Append(ReferencesOf(bs, o), ReferencesOf(more, o))
  {
    assert bs + more == (bs + cs) + [b];
    OneMoreBlock(bs + cs, b, o);
    OneMoreBlock(cs, b, o);
    AppendAssociates(ReferencesOf(bs, o), ReferencesOf(cs, o), BlockReferences(b, o));
  }

  lemma AppendAssociates(r: References, s: References, t: References)
    ensures Append(Append(r, s), t) == Append(r, Append(s, t))
  {
  }

  lemma OneMoreBlock(bs: seq<Block>, b: Block, o: Origin)
    ensures ReferencesOf(bs + [b], o) == Append(ReferencesOf(bs, o), BlockReferences(b, o))
  {
    ReferencesOfPrefix(bs, bs + [b], |bs|, o);
  }

  lemma {:induction false} ReferencesOfPrefix(bs: seq<Block>, cs: seq<Block>, n: nat, o: Origin)
    requires n <= |bs| && bs <= cs
    ensures ReferencesOfFirst(bs, n, o) == ReferencesOfFirst(cs, n, o)
    decreases n
  {
    if n > 0 {
      ReferencesOfPrefix(bs, cs, n - 1, o);
    }
  }

  lemma ReferencesOfOne(b: Block, o: Origin)
    ensures var refs := ReferencesOf([b], o);
            && |refs.embeds| <= 1 && |refs.attachments| <= 1 && |refs.links| <= 1
            && (refs.embeds != [] <==> b.embed.Some? && b.embed.value.tableId != "")
            && (refs.embeds != [] ==> EmbedsTable(b, o, refs.embeds[0]))
            && (refs.attachments != [] <==> b.attachment.Some? && b.attachment.value.fileId != "")
            && (refs.attachments != [] ==> CarriesFile(b, o, refs.attachments[0]))
            && (refs.links != [] <==> b.link.Some? && b.link.value.pageId != "")
            && (refs.links != [] ==>
                  && LinksPage(b, o, refs.links[0])
                  && refs.links[0].kind == if b.link.value.kind == "" then "page_ref" else b.link.value.kind)
  {
    OneMoreBlock([], b, o);
    assert [] + [b] == [b];
  }

  /** The loop body of `ExtractReferences`. */
  method CollectReferences(refs: References, b: Block, o: Origin) returns (r: References)
    ensures r == Append(refs, BlockReferences(b, o))
  {
    var embeds, attachments, links := refs.embeds, refs.attachments, refs.links;
    if b.embed.Some? && b.embed.value.tableId != "" {
      embeds := embeds
        + [EmbedRef(o.revisionId, o.pageId, b.id, b.embed.value.tableId, b.embed.value.displayConfig, o.at)];
    }
    if b.attachment.Some? && b.attachment.value.fileId != "" {
      attachments := attachments
        + [AttachmentRef(o.revisionId, o.pageId, b.id, b.attachment.value.fileId, o.at)];
    }
    if b.link.Some? && b.link.value.pageId != "" {
      var kind := if b.link.value.kind != "" then b.link.value.kind else DEFAULT_LINK_KIND;
      links := links + [LinkRef(o.revisionId, o.pageId, b.link.value.pageId, b.id, kind, o.at)];
    }
    r := References(embeds, attachments, links);
  }

  /** `ExtractReferences`: one pass that grows the three lists. */
  method ExtractReferences(d: Document, o: Origin) returns (refs: References)
    ensures refs == ReferencesOf(d.blocks, o)
  {
    refs := References([], [], []);
    for i := 0 to |d.blocks|
      invariant refs == ReferencesOfFirst(d.blocks, i, o)
    {
      refs := CollectReferences(refs, d.blocks[i], o);
    }
  }

  /** No reference depends on a live preview or an attachment's file name. */
  lemma ReferencesIgnoreLens(l: Lens, bs: seq<Block>, o: Origin)
    ensures ReferencesOf(NormBlocks(l, bs), o) == ReferencesOf(bs, o)
  {
    FirstReferencesIgnoreLens(l, bs, |bs|, o);
  }

  lemma {:induction false} FirstReferencesIgnoreLens(l: Lens, bs: seq<Block>, n: nat, o: Origin)
    requires n <= |bs|
    ensures ReferencesOfFirst(NormBlocks(l, bs), n, o) == ReferencesOfFirst(bs, n, o)
    decreases n
  {
    if n > 0 {
      FirstReferencesIgnoreLens(l, bs, n - 1, o);
      BlockReferencesIgnoreLens(l, bs[n - 1], o);
    }
  }

  lemma BlockReferencesIgnoreLens(l: Lens, b: Block, o: Origin)
    ensures BlockReferences(NormBlock(l, b), o) == BlockReferences(b, o)
  {
  }

  // -------------------------------------------------------------------- searchable text

  function NonEmpty(s: string): seq<string> {
    if s != "" then [s] else []
  }

  function BlockText(b: Block): seq<string> {
    NonEmpty(b.text)
    + (if b.link.Some? then NonEmpty(b.link.value.title) else [])
    + (if b.attachment.Some? then NonEmpty(b.attachment.value.filename) else [])
    + (if b.embed.Some? then NonEmpty(b.embed.value.title) else [])
  }

  function TextPartsOfFirst(bs: seq<Block>, n: nat): seq<string>
    requires n <= |bs|
  {
    if n == 0 then [] else TextPartsOfFirst(bs, n - 1) + BlockText(bs[n - 1])
  }

  function SearchableText(bs: seq<Block>): string {
    Join(TextPartsOfFirst(bs, |bs|), " ")
  }

  /** The four texts of a block that can be searched, in order; "" where there is none. */
  function FourTexts(b: Block): seq<string> {
    [b.text, if b.link.Some? then b.link.value.title else "",
     if b.attachment.Some? then b.attachment.value.filename else "", if b.embed.Some? then b.embed.value.title else ""]
  }

  /** The texts that are not empty, in order. */
  function Filled(texts: seq<string>): seq<string> {
    if texts == [] then [] else (if texts[0] == "" then [] else [texts[0]]) + Filled(texts[1..])
  }

  /** All blocks' texts one after the other. */
  function AllTexts(bs: seq<Block>): seq<string> {
    if bs == [] then [] else FourTexts(bs[0]) + AllTexts(bs[1..])
  }

  lemma {:induction false} FilledConcat(xs: seq<string>, ys: seq<string>)
    ensures Filled(xs + ys) == Filled(xs) + Filled(ys)
    decreases |xs|
  {
    if xs == [] {
      assert xs + ys == ys;
    } else {
      FilledConcat(xs[1..], ys);
      assert (xs + ys)[1..] == xs[1..] + ys;
    }
  }

  lemma {:induction false} AllTextsConcat(bs: seq<Block>, cs: seq<Block>)
    ensures AllTexts(bs + cs) == AllTexts(bs) + AllTexts(cs)
    decreases |bs|
  {
    if bs == [] {
      assert bs + cs == cs;
    } else {
      AllTextsConcat(bs[1..], cs);
      assert (bs + cs)[1..] == bs[1..] + cs;
    }
  }

  lemma FilledOne(x: string)
    ensures Filled([x]) == NonEmpty(x)
  {
    assert Filled([x][1..]) == [];
  }

  lemma FilledFour(w: string, x: string, y: string, z: string)
    ensures Filled([w, x, y, z]) == NonEmpty(w) + NonEmpty(x) + NonEmpty(y) + NonEmpty(z)
  {
    FilledOne(w);
    FilledOne(x);
    FilledOne(y);
    FilledOne(z);
    FilledConcat([w], [x]);
    FilledConcat([w] + [x], [y]);
    FilledConcat([w] + [x] + [y], [z]);
    assert [w, x, y, z] == [w] + [x] + [y] + [z];
  }

  lemma BlockTextIsFilled(b: Block)
    ensures BlockText(b) == Filled(FourTexts(b))
  {
    var four := FourTexts(b);
    FilledFour(four[0], four[1], four[2], four[3]);
  }

  lemma {:induction false} PartsAreFilled(bs: seq<Block>, n: nat)
    requires n <= |bs|
    ensures TextPartsOfFirst(bs, n) == Filled(AllTexts(bs[..n]))
    decreases n
  {
    if n > 0 {
      PartsAreFilled(bs, n - 1);
      BlockTextIsFilled(bs[n - 1]);
      assert bs[..n] == bs[..n - 1] + [bs[n - 1]];
      AllTextsConcat(bs[..n - 1], [bs[n - 1]]);
      assert AllTexts([bs[n - 1]]) == FourTexts(bs[n - 1]);
      FilledConcat(AllTexts(bs[..n - 1]), FourTexts(bs[n - 1]));
    }
  }

  /** The searchable text: all non-empty texts of all blocks in order, one space between two. */
  lemma SearchableTextMeans(bs: seq<Block>)
    ensures SearchableText(bs) == Join(Filled(AllTexts(bs)), " ")
  {
    PartsAreFilled(bs, |bs|);
    assert bs[..|bs|] == bs;
  }

  /** The loop body of `flattenSearchableText`. */
  method AppendBlockText(parts: seq<string>, b: Block) returns (r: seq<string>)
    ensures r == parts + BlockText(b)
  {
    r := [];
    if b.text != "" {
      r := r + [b.text];
    }
    if b.link.Some? && b.link.value.title != "" {
      r := r + [b.link.value.title];
    }
    if b.attachment.Some? && b.attachment.value.filename != "" {
      r := r + [b.attachment.value.filename];
    }
    if b.embed.Some? && b.embed.value.title != "" {
      r := r + [b.embed.value.title];
    }
    r := parts + r;
  }

  /** `flattenSearchableText`. */
  method FlattenSearchableText(bs: seq<Block>) returns (text: string)
    ensures text == SearchableText(bs)
  {
    var parts: seq<string> := [];
    for i := 0 to |bs|
      invariant parts == TextPartsOfFirst(bs, i)
    {
      parts := AppendBlockText(parts, bs[i]);
    }
    text := Join(parts, " ");
  }

  // -------------------------------------------------------------------- embed hydration

  /** The descriptor used while the external table service cannot be asked. */
  function DegradedDescriptor(bs: seq<Block>, ref: EmbedRef): Embed {
    Embed(ref.tableId, EmbedTitle(bs, ref.blockId), ref.displayConfig, PREVIEW_DEGRADED, map[], [])
  }

  /** The descriptor of each block id of the first n references; the last reference wins. */
  function DescriptorsOfFirst(bs: seq<Block>, refs: seq<EmbedRef>, n: nat): map<string, Embed>
    requires n <= |refs|
  {
    if n == 0 then map[]
    else DescriptorsOfFirst(bs, refs, n - 1)[refs[n - 1].blockId := DegradedDescriptor(bs, refs[n - 1])]
  }

  function DegradedDescriptors(bs: seq<Block>, refs: seq<EmbedRef>): map<string, Embed> {
    DescriptorsOfFirst(bs, refs, |refs|)
  }

  /** `resolveDocumentEmbeds` without a resolver, degraded answers allowed. */
  method ResolveDegraded(bs: seq<Block>, refs: seq<EmbedRef>) returns (descriptors: map<string, Embed>)
    ensures descriptors == DegradedDescriptors(bs, refs)
  {
    descriptors := map[];
    for i := 0 to |refs|
      invariant descriptors == DescriptorsOfFirst(bs, refs, i)
    {
      var title := EmbedTitleByBlockId(bs, refs[i].blockId);
      descriptors := descriptors[refs[i].blockId :=
        Embed(refs[i].tableId, title, refs[i].displayConfig, PREVIEW_DEGRADED, map[], [])];
    }
  }

  function HydrateBlockEmbed(b: Block, descriptors: map<string, Embed>): Block {
    if b.id in descriptors then b.(embed := Some(descriptors[b.id])) else b
  }

  function HydratedEmbeds(bs: seq<Block>, descriptors: map<string, Embed>): (r: seq<Block>)
    ensures |r| == |bs|
    ensures forall i :: 0 <= i < |bs| ==> r[i] == HydrateBlockEmbed(bs[i], descriptors)
  {
    seq(|bs|, i requires 0 <= i < |bs| => HydrateBlockEmbed(bs[i], descriptors))
  }

  /** `HydrateEmbeds`. */
  method HydrateEmbeds(d: Document, descriptors: map<string, Embed>) returns (h: Document)
    ensures h == Document(HydratedEmbeds(d.blocks, descriptors), d.metadata)
  {
    var blocks := [];
    for i := 0 to |d.blocks|
      invariant |blocks| == i
      invariant forall k :: 0 <= k < i ==> blocks[k] == HydrateBlockEmbed(d.blocks[k], descriptors)
    {
      var hydrated := d.blocks[i];
      if hydrated.id in descriptors {
        hydrated := hydrated.(embed := Some(descriptors[hydrated.id]));
      }
      blocks := blocks + [hydrated];
    }
    h := Document(blocks, d.metadata);
  }

  /** What a client is shown while every embed is degraded. */
  function LoadedDegraded(d: Document, o: Origin): Document {
    Document(HydratedEmbeds(d.blocks, DegradedDescriptors(d.blocks, ReferencesOf(d.blocks, o).embeds)), d.metadata)
  }

  /** Blocks that share an id with a table embed carry that same embed. */
  predicate EmbedsAgree(bs: seq<Block>) {
    forall i, j :: 0 <= i < |bs| && 0 <= j < |bs| && bs[i].id == bs[j].id && HasTable(bs[i])
      ==> bs[i].embed == bs[j].embed
  }

  /** Every embedded table of the first n blocks has a descriptor. */
  lemma {:induction false} TableHasDescriptor(bs: seq<Block>, n: nat, o: Origin, k: nat)
    requires k < n <= |bs| && HasTable(bs[k])
    ensures bs[k].id in DegradedDescriptors(bs, ReferencesOfFirst(bs, n, o).embeds)
    decreases n
  {
    if k < n - 1 {
      TableHasDescriptor(bs, n - 1, o, k);
    }
    LastDescriptor(bs, n, o);
  }

  lemma LastDescriptor(bs: seq<Block>, n: nat, o: Origin)
    requires 0 < n <= |bs|
    ensures var before := DegradedDescriptors(bs, ReferencesOfFirst(bs, n - 1, o).embeds);
            var b := bs[n - 1];
            DegradedDescriptors(bs, ReferencesOfFirst(bs, n, o).embeds)
            == if HasTable(b)
               then before[b.id := Embed(b.embed.value.tableId, EmbedTitle(bs, b.id), b.embed.value.displayConfig,
                                         PREVIEW_DEGRADED, map[], [])]
               else before
  {
    var refs, before := ReferencesOfFirst(bs, n, o).embeds, ReferencesOfFirst(bs, n - 1, o).embeds;
    if HasTable(bs[n - 1]) {
      DescriptorsOfPrefix(bs, before, refs, |before|);
    } else {
      assert refs == before;
    }
  }

  lemma {:induction false} DescriptorsOfPrefix(bs: seq<Block>, refs: seq<EmbedRef>, more: seq<EmbedRef>, n: nat)
    requires n <= |refs| <= |more| && refs == more[..|refs|]
    ensures DescriptorsOfFirst(bs, refs, n) == DescriptorsOfFirst(bs, more, n)
    decreases n
  {
    if n > 0 {
      DescriptorsOfPrefix(bs, refs, more, n - 1);
      assert refs[n - 1] == more[n - 1];
    }
  }

  /** Every descriptor comes from a block of that id that embeds a table. */
  lemma {:induction false} DescriptorHasSource(bs: seq<Block>, n: nat, o: Origin, id: string) returns (k: nat)
    requires n <= |bs|
    requires id in DegradedDescriptors(bs, ReferencesOfFirst(bs, n, o).embeds)
    ensures k < n && bs[k].id == id && HasTable(bs[k])
    ensures DegradedDescriptors(bs, ReferencesOfFirst(bs, n, o).embeds)[id]
            == Embed(bs[k].embed.value.tableId, EmbedTitle(bs, id), bs[k].embed.value.displayConfig,
                     PREVIEW_DEGRADED, map[], [])
    decreases n
  {
    LastDescriptor(bs, n, o);
    if HasTable(bs[n - 1]) && bs[n - 1].id == id {
      k := n - 1;
    } else {
      k := DescriptorHasSource(bs, n - 1, o, id);
    }
  }

  /** With distinct ids each block that embeds a table is shown its own table, degraded; others as they are. */
  lemma DegradedShows(bs: seq<Block>, o: Origin, i: nat)
    requires DistinctIds(bs) && i < |bs|
    ensures var shown := HydratedEmbeds(bs, DegradedDescriptors(bs, ReferencesOf(bs, o).embeds));
            shown[i] == if bs[i].embed.Some? && bs[i].embed.value.tableId != ""
                        then var e := bs[i].embed.value;
                             bs[i].(embed := Some(Embed(e.tableId, e.title, e.displayConfig, "degraded", map[], [])))
                        else bs[i]
  {
    var descriptors := DegradedDescriptors(bs, ReferencesOf(bs, o).embeds);
    if bs[i].id in descriptors {
      var k := DescriptorHasSource(bs, |bs|, o, bs[i].id);
      var j := EmbedTitleIsFirst(bs, bs[i].id, k);
    }
    if HasTable(bs[i]) {
      TableHasDescriptor(bs, |bs|, o, i);
    }
  }

  /** A block id has a descriptor exactly if a reference names it. */
  lemma {:induction false} DescribedIffNamed(bs: seq<Block>, refs: seq<EmbedRef>, n: nat, id: string)
    requires n <= |refs|
    ensures id in DescriptorsOfFirst(bs, refs, n) <==> exists k :: 0 <= k < n && refs[k].blockId == id
    decreases n
  {
    if n > 0 {
      DescribedIffNamed(bs, refs, n - 1, id);
    }
  }

  /** The last reference that names the id decides. */
  lemma {:induction false} LastReferenceWins(bs: seq<Block>, refs: seq<EmbedRef>, n: nat, id: string, k: nat)
    requires k < n <= |refs| && refs[k].blockId == id && forall j :: k < j < n ==> refs[j].blockId != id
    ensures id in DescriptorsOfFirst(bs, refs, n)
    ensures DescriptorsOfFirst(bs, refs, n)[id]
            == Embed(refs[k].tableId, EmbedTitle(bs, id), refs[k].displayConfig, "degraded", map[], [])
    decreases n
  {
    if k < n - 1 {
      LastReferenceWins(bs, refs, n - 1, id, k);
    }
  }

  /** When embeds agree, canonicalising a hydrated block gives the stored block back. */
  lemma HydratedBlockRoundTrips(bs: seq<Block>, o: Origin, i: nat)
    requires NormBlocks(CANONICAL, bs) == bs && EmbedsAgree(bs) && i < |bs|
    ensures NormBlock(CANONICAL, HydrateBlockEmbed(bs[i], DegradedDescriptors(bs, ReferencesOf(bs, o).embeds))) == bs[i]
  {
    var descriptors := DegradedDescriptors(bs, ReferencesOf(bs, o).embeds);
    assert bs[i] == NormBlock(CANONICAL, bs[i]);
    if bs[i].id in descriptors {
      var k := DescriptorHasSource(bs, |bs|, o, bs[i].id);
      var j := EmbedTitleIsFirst(bs, bs[i].id, k);
      assert bs[k].embed == bs[i].embed && bs[k].embed == bs[j].embed;
      assert bs[k] == NormBlock(CANONICAL, bs[k]);
    }
  }

  /**
   Loading a stored snapshot with degraded embeds and saving it back unchanged stores an
   equal snapshot exactly when blocks that share an id with a table embed carry the same
   embed; distinct block ids are enough.
   */
  lemma LoadSaveRoundTrip(d: Document, o: Origin)
    requires Canonical(d) == d
    ensures Canonical(LoadedDegraded(d, o)) == d <==> EmbedsAgree(d.blocks)
    ensures DistinctIds(d.blocks) ==> EmbedsAgree(d.blocks)
  {
    var bs := d.blocks;
    var descriptors := DegradedDescriptors(bs, ReferencesOf(bs, o).embeds);
    var back := NormBlocks(CANONICAL, HydratedEmbeds(bs, descriptors));
    if EmbedsAgree(bs) {
      forall i | 0 <= i < |bs| ensures back[i] == bs[i] {
        HydratedBlockRoundTrips(bs, o, i);
      }
      assert back == bs;
    }
    if back == bs {
      forall i, j | 0 <= i < |bs| && 0 <= j < |bs| && bs[i].id == bs[j].id && HasTable(bs[i])
        ensures bs[i].embed == bs[j].embed
      {
        TableHasDescriptor(bs, |bs|, o, i);
        assert back[i] == bs[i] && back[j] == bs[j];
      }
    }
  }

  // --------------------------------------------------------------- attachment hydration

  datatype FileMetadata = FileMetadata(present: bool, status: string, filename: string)

  /** No resolver configured, or the answers of the file service; a missing id is a failed call. */
  type FileResolver = Option<map<string, FileMetadata>>

  datatype HydrationError = LookupFailed(fileId: string) | AttachmentUnavailable(fileId: string)

  const FILE_READY := "ready"

  function HydrateBlock(files: map<string, FileMetadata>, b: Block): Result<Block, HydrationError> {
    if b.attachment.None? || b.attachment.value.fileId == "" then Ok(b)
    else
      var id := b.attachment.value.fileId;
      if id !in files then Err(LookupFailed(id))
      else if !files[id].present || files[id].status != FILE_READY then Err(AttachmentUnavailable(id))
      else Ok(b.(attachment := Some(b.attachment.value.(filename := files[id].filename))))
  }

  /** The blocks after the pass, and its error: blocks before the failing one stay rewritten. */
  datatype Hydration = Hydration(blocks: seq<Block>, error: Option<HydrationError>)

  function HydrateBlocks(files: map<string, FileMetadata>, bs: seq<Block>): Hydration {
    if bs == [] then Hydration([], None)
    else
      match HydrateBlock(files, bs[0])
      case Err(e) => Hydration(bs, Some(e))
      case Ok(b) =>
        var rest := HydrateBlocks(files, bs[1..]);
        Hydration([b] + rest.blocks, rest.error)
  }

  /** What the pass leaves in the block slice it was given. */
  function HydratePass(files: FileResolver, bs: seq<Block>): Hydration {
    if files.None? then Hydration(bs, None) else HydrateBlocks(files.value, bs)
  }

  function Hydrate(files: FileResolver, d: Document): Result<Document, HydrationError> {
    var pass := HydratePass(files, d.blocks);
    if pass.error.Some? then Err(pass.error.value) else Ok(Document(pass.blocks, d.metadata))
  }

  /** `ValidateAndHydrate`: writes the file names into the block slice it shares with its caller. */
  method ValidateAndHydrate(files: FileResolver, blocks: array<Block>) returns (error: Option<HydrationError>)
    modifies blocks
    ensures Hydration(blocks[..], error) == HydratePass(files, old(blocks[..]))
  {
    if files.None? {
      return None;
    }
    ghost var was := blocks[..];
    ghost var all := HydrateBlocks(files.value, was);
    var i := 0;
    while i < blocks.Length
      invariant 0 <= i <= blocks.Length
      invariant blocks[i..] == was[i..]
      invariant HydratesFrom(files.value, was, i, all, blocks[..i])
    {
      HydrateStep(files.value, was, i, all, blocks[..i]);
      var b := blocks[i];
      assert b == was[i];
      if b.attachment.Some? && b.attachment.value.fileId != "" {
        var id := b.attachment.value.fileId;
        if id !in files.value {
          assert blocks[..] == blocks[..i] + was[i..];
          return Some(LookupFailed(id));
        }
        var metadata := files.value[id];
        if !metadata.present || metadata.status != FILE_READY {
          assert blocks[..] == blocks[..i] + was[i..];
          return Some(AttachmentUnavailable(id));
        }
        b := b.(attachment := Some(b.attachment.value.(filename := metadata.filename)));
        blocks[i] := b;
      }
      assert blocks[..i + 1] == blocks[..i] + [b];
      i := i + 1;
    }
    assert blocks[..i] == blocks[..];
    return None;
  }

  /** The first i blocks are done and the pass over the others yields the whole result. */
  ghost predicate HydratesFrom(files: map<string, FileMetadata>, bs: seq<Block>, i: nat, all: Hydration, done: seq<Block>)
    requires i <= |bs|
  {
    var rest := HydrateBlocks(files, bs[i..]);
    all == Hydration(done + rest.blocks, rest.error)
  }

  lemma HydrateStep(files: map<string, FileMetadata>, bs: seq<Block>, i: nat, all: Hydration, done: seq<Block>)
    requires i < |bs| && HydratesFrom(files, bs, i, all, done)
    ensures match HydrateBlock(files, bs[i])
            case Err(e) => all == Hydration(done + bs[i..], Some(e))
            case Ok(b) => HydratesFrom(files, bs, i + 1, all, done + [b])
  {
  }

  /** The block carries no file, or one that the file service knows, has and calls ready. */
  predicate FileReady(files: map<string, FileMetadata>, b: Block) {
    b.attachment.Some? && b.attachment.value.fileId != "" ==>
      && b.attachment.value.fileId in files && files[b.attachment.value.fileId].present
      && files[b.attachment.value.fileId].status == "ready"
  }

  /** The block as it was, but for the name the file service gives its file. */
  predicate FileNamed(files: map<string, FileMetadata>, b: Block, c: Block)
    requires FileReady(files, b)
  {
    if b.attachment.Some? && b.attachment.value.fileId != ""
    then c == b.(attachment := Some(b.attachment.value.(filename := files[b.attachment.value.fileId].filename)))
    else c == b
  }

  /** Why the pass stops at this block. */
  predicate StopsWith(files: map<string, FileMetadata>, b: Block, e: HydrationError) {
    && b.attachment.Some?
    && e == (if b.attachment.value.fileId in files then AttachmentUnavailable(b.attachment.value.fileId)
             else LookupFailed(b.attachment.value.fileId))
  }

  /**
   The pass names the files of the blocks before the first that is not ready, and leaves that
   block and all after it alone; it ends without an error exactly if there is none.
   */
  lemma {:induction false} HydrationMeans(files: map<string, FileMetadata>, bs: seq<Block>) returns (stop: nat)
    ensures stop <= |bs| && (stop < |bs| ==> !FileReady(files, bs[stop]))
    ensures var h := HydratePass(Some(files), bs);
            && |h.blocks| == |bs|
            && (forall i :: 0 <= i < stop ==> FileReady(files, bs[i]) && FileNamed(files, bs[i], h.blocks[i]))
            && (forall i :: stop <= i < |bs| ==> h.blocks[i] == bs[i])
            && (if stop == |bs| then h.error.None? else h.error.Some? && StopsWith(files, bs[stop], h.error.value))
    decreases |bs|
  {
    stop := 0;
    if bs != [] && FileReady(files, bs[0]) {
      stop := HydrationMeans(files, bs[1..]);
      stop := stop + 1;
    }
  }

  /** The error is that of the first block whose file is not ready. */
  ghost predicate FirstUnready(files: FileResolver, bs: seq<Block>, e: HydrationError) {
    && files.Some?
    && exists k :: 0 <= k < |bs| && !FileReady(files.value, bs[k]) && StopsWith(files.value, bs[k], e)
                   && forall j :: 0 <= j < k ==> FileReady(files.value, bs[j])
  }

  /** So a document is accepted exactly if all its files are ready; without a file service always. */
  lemma AcceptedIffReady(files: FileResolver, bs: seq<Block>)
    ensures HydratePass(files, bs).error.None?
            <==> files.None? || forall i :: 0 <= i < |bs| ==> FileReady(files.value, bs[i])
    ensures files.None? ==> HydratePass(files, bs).blocks == bs
    ensures HydratePass(files, bs).error.Some? ==> FirstUnready(files, bs, HydratePass(files, bs).error.value)
  {
    if files.Some? {
      var stop := HydrationMeans(files.value, bs);
    }
  }

  /** The pass, finished or not, changes file names only. */
  lemma {:induction false} HydrationKeepsRest(files: FileResolver, bs: seq<Block>, l: Lens)
    requires l.dropFilenames
    ensures |HydratePass(files, bs).blocks| == |bs|
    ensures NormBlocks(l, HydratePass(files, bs).blocks) == NormBlocks(l, bs)
    decreases |bs|
  {
    if files.Some? && bs != [] && HydrateBlock(files.value, bs[0]).Ok? {
      HydrationKeepsRest(files, bs[1..], l);
      var h := HydratePass(files, bs).blocks;
      var rest := HydratePass(files, bs[1..]).blocks;
      assert h == [h[0]] + rest;
      forall i | 0 <= i < |bs| ensures NormBlock(l, h[i]) == NormBlock(l, bs[i]) {
        if i > 0 {
          assert h[i] == rest[i - 1];
          assert NormBlock(l, rest[i - 1]) == NormBlocks(l, rest)[i - 1] == NormBlocks(l, bs[1..])[i - 1];
        }
      }
    }
  }

  /** The pass never undoes canonicalisation. */
  lemma {:induction false} HydrationKeepsCanonical(files: FileResolver, bs: seq<Block>)
    requires NormBlocks(CANONICAL, bs) == bs
    ensures NormBlocks(CANONICAL, HydratePass(files, bs).blocks) == HydratePass(files, bs).blocks
    decreases |bs|
  {
    if files.Some? && bs != [] && HydrateBlock(files.value, bs[0]).Ok? {
      assert forall i :: 0 <= i < |bs| ==> bs[i] == NormBlock(CANONICAL, bs[i]);
      assert NormBlocks(CANONICAL, bs[1..]) == bs[1..];
      HydrationKeepsCanonical(files, bs[1..]);
      var h := HydratePass(files, bs).blocks;
      var rest := HydratePass(files, bs[1..]).blocks;
      assert h == [h[0]] + rest;
      forall i | 0 <= i < |h| ensures NormBlock(CANONICAL, h[i]) == h[i] {
        if i > 0 {
          assert h[i] == rest[i - 1] == NormBlocks(CANONICAL, rest)[i - 1];
        }
      }
    }
  }
}
