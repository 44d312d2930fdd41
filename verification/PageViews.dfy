/** What a load of a page shows, of either view. */
module PageViews {
  import opened Wrappers
  import opened Documents
  import opened PageStore
  import opened PageEvents
  import opened UseCases
  import opened Lifecycle
  import opened Guarantees

  /** The revision a view is about: the last draft, or the last published one if there is any. */
  ghost predicate IsShown(revs: seq<Revision>, view: Kind, i: int) {
    && 0 <= i < |revs|
    && if view == PublishedKind && exists k :: 0 <= k < |revs| && revs[k].kind == PublishedKind
       then revs[i].kind == PublishedKind && forall k :: i < k < |revs| ==> revs[k].kind == DraftKind
       else revs[i].kind == DraftKind && forall k :: i < k < |revs| ==> revs[k].kind == PublishedKind
  }

  /** Every view of a page finds the revision it is about; the published one is the page's `publishedNo`. */
  lemma ViewsShowHeads(st: State, p: string, view: Kind) returns (i: nat)
    requires PageOk(st, p)
    ensures IsShown(RevisionsOf(st, p), view, i) && HeadRevision(st, p, view) == Some(RevisionsOf(st, p)[i])
    ensures view == DraftKind ==> i + 1 == st.pages[p].draftNo
    ensures view == PublishedKind && st.pages[p].publishedId != "" ==> i + 1 == st.pages[p].publishedNo
  {
    var page, revs := st.pages[p], RevisionsOf(st, p);
    HeadsPointToLast(st, p);
    HeadsAreLast(revs, |revs|);
    if view == PublishedKind && page.publishedId != "" {
      i := page.publishedNo - 1;
      assert revs[i].kind == PublishedKind;
    } else {
      i := page.draftNo - 1;
      if page.publishedId == "" {
        NoneIsPublished(revs, page.publishedNo, page.publishedId);
      }
    }
    FoundById(revs, i);
  }

  lemma NoneIsPublished(revs: seq<Revision>, no: int, id: string)
    requires HistoryOk(revs) && IsLastPublished(revs, no, id) && id == ""
    ensures forall k :: 0 <= k < |revs| ==> revs[k].kind == DraftKind
  {
    if 0 < no <= |revs| {
      DerivedAt(revs, |revs|, no - 1);
    }
  }

  /** The block is shown as stored, but for the name of its file and for its embed. */
  predicate ShownAs(shown: Block, stored: Block) {
    && shown.id == stored.id && shown.kind == stored.kind && shown.text == stored.text && shown.attrs == stored.attrs
    && shown.link == stored.link && shown.attachment.Some? == stored.attachment.Some?
    && (stored.attachment.Some? ==>
          && shown.attachment.value.fileId == stored.attachment.value.fileId
          && shown.attachment.value.blockId == stored.attachment.value.blockId)
  }

  /** An embedded table is shown degraded, without rows; anything else as it is. */
  predicate EmbedShown(shown: Block, stored: Block) {
    if stored.embed.Some? && stored.embed.value.tableId != ""
    then shown.embed == Some(Embed(stored.embed.value.tableId, stored.embed.value.title, stored.embed.value.displayConfig,
                                   "degraded", map[], []))
    else shown.embed == stored.embed
  }

  predicate Shows(d: Document, r: Revision) {
    && d.metadata == r.document.metadata && |d.blocks| == |r.document.blocks|
    && forall k :: 0 <= k < |d.blocks| ==>
         && ShownAs(d.blocks[k], r.document.blocks[k])
         && (DistinctIds(r.document.blocks) ==> EmbedShown(d.blocks[k], r.document.blocks[k]))
  }

  lemma NamedIsShown(b: Block, c: Block)
    requires SameButNames(b, c) && NormBlock(CANONICAL, b) == b && NormBlock(CANONICAL, c) == c
    ensures ShownAs(c, b) && c.embed == b.embed
  {
  }

  /** The pass leaves blocks that read as before. */
  lemma PassReadsAlike(files: FileResolver, bs: seq<Block>, k: nat)
    requires NormBlocks(CANONICAL, bs) == bs && k < |bs|
    ensures |HydratePass(files, bs).blocks| == |bs|
    ensures ShownAs(HydratePass(files, bs).blocks[k], bs[k]) && HydratePass(files, bs).blocks[k].embed == bs[k].embed
  {
    var named := HydratePass(files, bs).blocks;
    HydrationKeepsRest(files, bs, SHARED);
    HydrationKeepsCanonical(files, bs);
    SameViewIff(Document(bs, map[]), Document(named, map[]));
    assert NormBlocks(CANONICAL, bs)[k] == bs[k] && NormBlocks(CANONICAL, named)[k] == named[k];
    NamedIsShown(bs[k], named[k]);
  }

  /** Whatever descriptors are put in, only embeds change. */
  lemma EmbedsOnly(b: Block, descriptors: map<string, Embed>)
    ensures HydrateBlockEmbed(b, descriptors).(embed := b.embed) == b
  {
  }

  lemma DegradedReads(bs: seq<Block>, o: Origin, refs: seq<EmbedRef>, files: FileResolver, k: nat)
    requires NormBlocks(CANONICAL, bs) == bs && k < |bs| && refs == ReferencesOf(bs, o).embeds
    ensures |HydratePass(files, bs).blocks| == |bs|
    ensures var named := HydratePass(files, bs).blocks;
            var shown := HydratedEmbeds(named, DegradedDescriptors(named, refs))[k];
            ShownAs(shown, bs[k]) && (DistinctIds(bs) ==> EmbedShown(shown, bs[k]))
  {
    var named := HydratePass(files, bs).blocks;
    PassReadsAlike(files, bs, k);
    EmbedsOnly(named[k], DegradedDescriptors(named, refs));
    HydrationKeepsRest(files, bs, SHARED);
    ReferencesIgnoreLens(SHARED, bs, o);
    ReferencesIgnoreLens(SHARED, named, o);
    if DistinctIds(bs) {
      forall j | 0 <= j < |bs| ensures named[j].id == bs[j].id {
        PassReadsAlike(files, bs, j);
      }
      DegradedShows(named, o, k);
    }
  }

  lemma WholeIsShown(r: Revision, refs: seq<EmbedRef>, files: FileResolver)
    requires NormBlocks(CANONICAL, r.document.blocks) == r.document.blocks
    requires refs == ReferencesOf(r.document.blocks, OriginOf(r)).embeds
    ensures var named := HydratePass(files, r.document.blocks).blocks;
            Shows(Document(HydratedEmbeds(named, DegradedDescriptors(named, refs)), r.document.metadata), r)
  {
    HydrationKeepsRest(files, r.document.blocks, SHARED);
    forall k | 0 <= k < |r.document.blocks|
      ensures |HydratePass(files, r.document.blocks).blocks| == |r.document.blocks|
      ensures var named := HydratePass(files, r.document.blocks).blocks;
              var shown := HydratedEmbeds(named, DegradedDescriptors(named, refs))[k];
              ShownAs(shown, r.document.blocks[k]) && (DistinctIds(r.document.blocks) ==> EmbedShown(shown, r.document.blocks[k]))
    {
      DegradedReads(r.document.blocks, OriginOf(r), refs, files, k);
    }
  }

  /**
   A page load shows the revision its view is about: the whole document in order, tables
   degraded. It is refused exactly if a file of that revision is not ready.
   */
  lemma LoadShows(w: World, p: string, view: Kind, files: FileResolver) returns (i: nat)
    requires PageOk(w.store, p)
    ensures IsShown(RevisionsOf(w.store, p), view, i)
    ensures var r, loaded := RevisionsOf(w.store, p)[i], ShownDocument(w.store, ReadView(w, p, view, files).response);
            && (loaded.Ok? ==> Shows(loaded.value, r))
            && (loaded.Err? ==> loaded.error.Unhydrated? && FirstUnready(files, r.document.blocks, loaded.error.reason))
            && (loaded.Ok? <==> files.None? || forall k :: 0 <= k < |r.document.blocks| ==> FileReady(files.value, r.document.blocks[k]))
  {
    i := ViewsShowHeads(w.store, p, view);
    var revs := RevisionsOf(w.store, p);
    var r := revs[i];
    DerivedAt(revs, |revs|, i);
    ProjectedAt(TablesOf(w.store), p, revs, |revs|, i);
    AcceptedIffReady(files, r.document.blocks);
    ReadFinds(w, p, view, files, i);
    WholeIsShown(r, w.store.embeds[r.id], files);
  }

  /** The answer of a read, in terms of the revision found. */
  lemma ReadFinds(w: World, p: string, view: Kind, files: FileResolver, i: nat)
    requires p in w.store.pages && i < |RevisionsOf(w.store, p)| && HeadRevision(w.store, p, view) == Some(RevisionsOf(w.store, p)[i])
    ensures var r, pass := RevisionsOf(w.store, p)[i], HydratePass(files, RevisionsOf(w.store, p)[i].document.blocks);
            ReadView(w, p, view, files).response
            == if pass.error.Some? then Refused(Unhydrated(pass.error.value))
               else HeadIs(Head(r.no, r.id, Document(pass.blocks, r.document.metadata)))
    ensures ReadView(w, p, view, files).world == w.(store := ReadView(w, p, view, files).world.store)
  {
  }

  /**
   A load that finds a revision leaves in its place what the pass made of its blocks, finished or
   not, and nothing else changes.
   */
  lemma LoadLeaves(w: World, p: string, view: Kind, files: FileResolver, i: nat)
    requires PageOk(w.store, p) && i < |RevisionsOf(w.store, p)| && HeadRevision(w.store, p, view) == Some(RevisionsOf(w.store, p)[i])
    ensures var revs, after := RevisionsOf(w.store, p), ReadView(w, p, view, files).world;
            var pass := HydratePass(files, revs[i].document.blocks);
            after == w.(store := w.store.(revisions := w.store.revisions[p :=
                       revs[i := revs[i].(document := Document(pass.blocks, revs[i].document.metadata))]]))
  {
    FoundById(RevisionsOf(w.store, p), i);
  }

  /** A page that does not exist is not found, and nothing changes. */
  lemma MissingIsNotFound(w: World, p: string, view: Kind, files: FileResolver)
    requires p !in w.store.pages
    ensures ReadView(w, p, view, files) == Outcome(w, Refused(PageNotFound))
    ensures ShownDocument(w.store, ReadView(w, p, view, files).response) == Err(PageNotFound)
  {
  }
}
