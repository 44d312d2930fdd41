/**
 Resuming an editor after a lost connection: which of the client's pending patches the server
 already has, and whether the client may go on without reloading the page.
 */
module Resume {
  import opened Wrappers
  import opened Text
  import opened Documents
  import opened PageStore
  import opened PageEvents
  import opened ReplayWindow
  import opened UseCases
  import opened Lifecycle
  import opened DraftChain
  import opened Runs
  import opened Guarantees
  import opened PageServiceRun

  // ------------------------------------------------------------------- pending patch ids

  /** One of the first n ids is this one, trimmed. */
  predicate SeenBefore(pending: seq<string>, n: nat, id: string)
    requires n <= |pending|
  {
    n > 0 && (TrimSpace(pending[n - 1]) == id || SeenBefore(pending, n - 1, id))
  }

  /** The first occurrence of each trimmed, non-empty id among the first n that is to be kept. */
  function SelectFirst(pending: seq<string>, n: nat, keep: string -> bool): seq<string>
    requires n <= |pending|
  {
    if n == 0 then []
    else
      var id := TrimSpace(pending[n - 1]);
      SelectFirst(pending, n - 1, keep)
      + (if id == "" || SeenBefore(pending, n - 1, id) || !keep(id) then [] else [id])
  }

  predicate InEntries(entries: seq<Entry>, id: string) {
    exists k :: 0 <= k < |entries| && TrimSpace(entries[k].patchId) == id
  }

  /** The server has the patch: it is in the replay entries or has an idempotency record. */
  function Known(st: State, p: string, entries: seq<Entry>): string -> bool {
    id => InEntries(entries, id) || IdempotencyKey(p, CollabKey(id)) in st.idempotencies
  }

  function Unknown(st: State, p: string, entries: seq<Entry>): string -> bool {
    id => !InEntries(entries, id) && IdempotencyKey(p, CollabKey(id)) !in st.idempotencies
  }

  /** The patch ids of the entries, trimmed, without the empty one. */
  method PatchIds(entries: seq<Entry>) returns (ids: set<string>)
    ensures forall id :: id in ids <==> id != "" && InEntries(entries, id)
  {
    ids := {};
    for i := 0 to |entries|
      invariant forall id :: id in ids <==> id != "" && exists k :: 0 <= k < i && TrimSpace(entries[k].patchId) == id
    {
      var id := TrimSpace(entries[i].patchId);
      if id != "" {
        ids := ids + {id};
      }
    }
  }

  method HasPatch(store: Store, p: string, id: string, replayedSet: set<string>, ghost entries: seq<Entry>)
    returns (known: bool)
    requires id != "" && TrimSpace(id) == id && (id in replayedSet <==> InEntries(entries, id))
    ensures known == Known(store.Snapshot(), p, entries)(id) && known == !Unknown(store.Snapshot(), p, entries)(id)
  {
    if id in replayedSet {
      return true;
    }
    var record := store.GetDraftIdempotency(p, "collab:" + id);
    return record.Some?;
  }

  lemma SelectStep(pending: seq<string>, i: nat, keep: string -> bool)
    requires i < |pending|
    ensures var id, s := TrimSpace(pending[i]), SelectFirst(pending, i, keep);
            SelectFirst(pending, i + 1, keep) == if id == "" || SeenBefore(pending, i, id) || !keep(id) then s else s + [id]
  {
  }

  ghost predicate SeenIs(pending: seq<string>, n: nat, seen: set<string>)
    requires n <= |pending|
  {
    forall id :: id in seen <==> id != "" && SeenBefore(pending, n, id)
  }

  lemma SeenGrows(pending: seq<string>, n: nat, seen: set<string>)
    requires n < |pending| && SeenIs(pending, n, seen)
    ensures var id := TrimSpace(pending[n]);
            && (id in seen <==> id != "" && SeenBefore(pending, n, id))
            && SeenIs(pending, n + 1, if id == "" then seen else seen + {id})
  {
  }

  /** `classifyPendingPatchIDs`. */
  method ClassifyPendingPatchIds(store: Store, p: string, pending: seq<string>, entries: seq<Entry>)
    returns (replayed: seq<string>, missing: seq<string>)
    ensures replayed == SelectFirst(pending, |pending|, Known(store.Snapshot(), p, entries))
    ensures missing == SelectFirst(pending, |pending|, Unknown(store.Snapshot(), p, entries))
  {
    replayed, missing := [], [];
    var seen: set<string> := {};
    var replayedSet := PatchIds(entries);
    ghost var known, unknown := Known(store.Snapshot(), p, entries), Unknown(store.Snapshot(), p, entries);
    for i := 0 to |pending|
      invariant SeenIs(pending, i, seen)
      invariant replayed == SelectFirst(pending, i, known)
      invariant missing == SelectFirst(pending, i, unknown)
    {
      SelectStep(pending, i, known);
      SelectStep(pending, i, unknown);
      SeenGrows(pending, i, seen);
      var id := TrimSpace(pending[i]);
      if id == "" || id in seen {
        continue;
      }
      seen := seen + {id};
      TrimSpaceIdempotent(pending[i]);
      var has := HasPatch(store, p, id, replayedSet, entries);
      if has {
        replayed := replayed + [id];
        continue;
      }
      missing := missing + [id];
    }
  }

  /** Where the id occurs first among the first n trimmed pending ids, or n. */
  function FirstAt(pending: seq<string>, n: nat, id: string): (k: nat)
    requires n <= |pending|
    ensures k <= n
    ensures k < n <==> SeenBefore(pending, n, id)
    ensures k < n ==> TrimSpace(pending[k]) == id && !SeenBefore(pending, k, id)
  {
    if n == 0 then 0
    else if SeenBefore(pending, n - 1, id) then FirstAt(pending, n - 1, id)
    else if TrimSpace(pending[n - 1]) == id then n - 1
    else n
  }

  lemma {:induction false} SelectionMembers(pending: seq<string>, n: nat, keep: string -> bool, id: string)
    requires n <= |pending|
    ensures id in SelectFirst(pending, n, keep) <==> id != "" && keep(id) && SeenBefore(pending, n, id)
    decreases n
  {
    if n > 0 {
      SelectionMembers(pending, n - 1, keep, id);
      SelectStep(pending, n - 1, keep);
    }
  }

  /** A selection keeps the order of first occurrence, hence has no duplicates. */
  ghost predicate InFirstOrder(pending: seq<string>, s: seq<string>) {
    forall i, j :: 0 <= i < j < |s| ==> FirstAt(pending, |pending|, s[i]) < FirstAt(pending, |pending|, s[j])
  }

  lemma {:induction false} FirstAtStays(pending: seq<string>, n: nat, m: nat, id: string)
    requires n <= m <= |pending| && SeenBefore(pending, n, id)
    ensures SeenBefore(pending, m, id) && FirstAt(pending, m, id) == FirstAt(pending, n, id)
    decreases m
  {
    if n < m {
      FirstAtStays(pending, n, m - 1, id);
    }
  }

  lemma OrderGrows(pending: seq<string>, s: seq<string>, id: string)
    requires InFirstOrder(pending, s)
    requires forall x :: x in s ==> FirstAt(pending, |pending|, x) < FirstAt(pending, |pending|, id)
    ensures InFirstOrder(pending, s + [id])
  {
  }

  lemma {:induction false} SelectionIsOrdered(pending: seq<string>, n: nat, keep: string -> bool)
    requires n <= |pending|
    ensures InFirstOrder(pending, SelectFirst(pending, n, keep))
    decreases n
  {
    if n > 0 {
      SelectionIsOrdered(pending, n - 1, keep);
      OrderedStep(pending, n - 1, keep, SelectFirst(pending, n - 1, keep), SelectFirst(pending, n, keep));
    }
  }

  lemma OrderedStep(pending: seq<string>, n: nat, keep: string -> bool, s: seq<string>, t: seq<string>)
    requires n < |pending| && s == SelectFirst(pending, n, keep) && t == SelectFirst(pending, n + 1, keep)
    requires InFirstOrder(pending, s)
    ensures InFirstOrder(pending, t)
  {
    SelectStep(pending, n, keep);
    if t != s {
      SelectedLast(pending, n, keep);
    }
  }

  lemma SelectedLast(pending: seq<string>, n: nat, keep: string -> bool)
    requires n < |pending| && InFirstOrder(pending, SelectFirst(pending, n, keep))
    requires !SeenBefore(pending, n, TrimSpace(pending[n]))
    ensures InFirstOrder(pending, SelectFirst(pending, n, keep) + [TrimSpace(pending[n])])
  {
    var id, s := TrimSpace(pending[n]), SelectFirst(pending, n, keep);
    FirstAtStays(pending, n + 1, |pending|, id);
    forall x | x in s ensures FirstAt(pending, |pending|, x) < n {
      SelectionMembers(pending, n, keep, x);
      FirstAtStays(pending, n, |pending|, x);
    }
    OrderGrows(pending, s, id);
  }

  /**
   Classification splits the distinct trimmed pending ids in two: every id is on exactly one
   side, missing exactly when the server has neither an entry nor a record of it, and both
   sides keep the order of first occurrence.
   */
  lemma ClassificationIsOrderedPartition(st: State, p: string, pending: seq<string>, entries: seq<Entry>)
    ensures var replayed := SelectFirst(pending, |pending|, Known(st, p, entries));
            var missing := SelectFirst(pending, |pending|, Unknown(st, p, entries));
            && (forall id :: id in replayed || id in missing <==> id != "" && SeenBefore(pending, |pending|, id))
            && (forall id :: !(id in replayed && id in missing))
            && (forall id :: id in missing <==>
                  && id != "" && SeenBefore(pending, |pending|, id)
                  && !InEntries(entries, id) && IdempotencyKey(p, CollabKey(id)) !in st.idempotencies)
            && InFirstOrder(pending, replayed) && InFirstOrder(pending, missing)
  {
    var known, unknown := Known(st, p, entries), Unknown(st, p, entries);
    SelectionIsOrdered(pending, |pending|, known);
    SelectionIsOrdered(pending, |pending|, unknown);
    forall id
      ensures id in SelectFirst(pending, |pending|, known) <==> id != "" && known(id) && SeenBefore(pending, |pending|, id)
      ensures id in SelectFirst(pending, |pending|, unknown) <==> id != "" && unknown(id) && SeenBefore(pending, |pending|, id)
    {
      SelectionMembers(pending, |pending|, known, id);
      SelectionMembers(pending, |pending|, unknown, id);
    }
  }

  // ------------------------------------------------------------------------- the decision

  datatype ResumeToken = ResumeToken(pageId: string, revisionId: string, revisionNo: int, headNo: int, headPatchId: string)

  /** `buildResumeToken`, before it is encoded. */
  function BuildToken(p: string, r: Revision, entries: seq<Entry>): ResumeToken {
    if entries == [] then ResumeToken(p, r.id, r.no, 0, "")
    else ResumeToken(p, r.id, r.no, entries[|entries| - 1].revisionNo, entries[|entries| - 1].patchId)
  }

  predicate TokenMatches(token: Option<ResumeToken>, p: string, lastKnown: int) {
    token.Some? && token.value.pageId == p && token.value.revisionNo == lastKnown
  }

  predicate IsReplayedPatch(e: Entry, replayed: seq<string>) {
    e.kind == CollabPatchEntry && TrimSpace(e.patchId) in replayed
  }

  predicate CanResume(p: string, lastKnown: int, token: Option<ResumeToken>, headNo: int, entries: seq<Entry>,
                      replayed: seq<string>)
  {
    if lastKnown == headNo then token.None? || TokenMatches(token, p, lastKnown)
    else
      && TokenMatches(token, p, lastKnown) && entries != []
      && forall i :: 0 <= i < |entries| ==> IsReplayedPatch(entries[i], replayed)
  }

  /** `canResumeWithoutReload`. */
  method CanResumeWithoutReload(p: string, lastKnown: int, token: Option<ResumeToken>, headNo: int, entries: seq<Entry>,
                                replayed: seq<string>) returns (ok: bool)
    ensures ok == CanResume(p, lastKnown, token, headNo, entries, replayed)
  {
    if lastKnown == headNo {
      if token.None? {
        return true;
      }
      return token.value.pageId == p && token.value.revisionNo == lastKnown;
    }
    if token.None? || token.value.pageId != p || token.value.revisionNo != lastKnown {
      return false;
    }
    if |entries| == 0 {
      return false;
    }
    for i := 0 to |entries|
      invariant forall k :: 0 <= k < i ==> IsReplayedPatch(entries[k], replayed)
    {
      if entries[i].kind != CollabPatchEntry || TrimSpace(entries[i].patchId) !in replayed {
        return false;
      }
    }
    return true;
  }

  datatype SyncInput = SyncInput(pageId: string, lastKnown: int, pending: seq<string>, token: Option<ResumeToken>)

  /** The document of a `replace` answer; there is none in a `resume` answer. */
  datatype SyncPayload = SyncPayload(
    currentNo: int, currentId: string, document: Option<Document>, missing: seq<string>, replayed: seq<string>,
    token: ResumeToken)

  function EntriesSince(w: World, input: SyncInput): seq<Entry> {
    Since(EntriesOf(w.windows, input.pageId), input.lastKnown)
  }

  function ReplayedIds(w: World, input: SyncInput): seq<string> {
    SelectFirst(input.pending, |input.pending|, Known(w.store, input.pageId, EntriesSince(w, input)))
  }

  function MissingIds(w: World, input: SyncInput): seq<string> {
    SelectFirst(input.pending, |input.pending|, Unknown(w.store, input.pageId, EntriesSince(w, input)))
  }

  /** The client may keep what it has. */
  predicate Resumes(w: World, input: SyncInput) {
    && input.pageId in w.store.pages && HeadRevision(w.store, input.pageId, DraftKind).Some?
    && CanResume(input.pageId, input.lastKnown, input.token, HeadRevision(w.store, input.pageId, DraftKind).value.no,
                 EntriesSince(w, input), ReplayedIds(w, input))
  }

  /** `ResumeEditorSync.Execute`; a reload reads the draft as `GetPage` does. */
  method ResumeEditorSync(service: PageService, input: SyncInput, files: FileResolver)
    returns (answer: Result<SyncPayload, UseCaseError>)
    modifies service.store
    ensures service.Now() == (if Resumes(old(service.Now()), input) then old(service.Now())
                              else ReadView(old(service.Now()), input.pageId, DraftKind, files).world)
    ensures answer.Ok? ==>
              && HeadRevision(old(service.Now()).store, input.pageId, DraftKind).Some?
              && var w, r := old(service.Now()), HeadRevision(old(service.Now()).store, input.pageId, DraftKind).value;
                 && answer.value.currentNo == r.no && answer.value.currentId == r.id
                 && answer.value.replayed == ReplayedIds(w, input) && answer.value.missing == MissingIds(w, input)
                 && answer.value.token == BuildToken(input.pageId, r, EntriesSince(w, input))
                 && (answer.value.document.None? <==> Resumes(w, input))
    ensures !Resumes(old(service.Now()), input) && ReadView(old(service.Now()), input.pageId, DraftKind, files).response.HeadIs? ==>
              && answer.Ok? && answer.value.document.Some?
              && var read := ReadView(old(service.Now()), input.pageId, DraftKind, files).response;
                 Ok(answer.value.document.value) == ShownDocument(old(service.Now()).store, read)
    ensures answer.Err? ==>
              answer.error == PageNotFound
              || ReadView(old(service.Now()), input.pageId, DraftKind, files).response == Refused(answer.error)
  {
    var store := service.store;
    var page := store.GetPage(input.pageId);
    var revision := store.GetRevision(input.pageId, DraftKind);
    if page.None? || revision.None? {
      return Err(PageNotFound);
    }
    var entries := service.window.ListSinceRevision(input.pageId, input.lastKnown);
    var replayed, missing := ClassifyPendingPatchIds(store, input.pageId, input.pending, entries);
    var token := BuildToken(input.pageId, revision.value, entries);
    var resumes := CanResumeWithoutReload(input.pageId, input.lastKnown, input.token, revision.value.no, entries, replayed);
    if resumes {
      return Ok(SyncPayload(revision.value.no, revision.value.id, None, missing, replayed, token));
    }
    var document := service.GetPage(input.pageId, DraftKind, files);
    if document.Err? {
      return Err(document.error);
    }
    return Ok(SyncPayload(revision.value.no, revision.value.id, Some(document.value), missing, replayed, token));
  }

  // ------------------------------------------------------------------ when a client resumes

  /** The token was made for this page at the revision the client says it has. */
  predicate TokenFits(input: SyncInput) {
    input.token.Some? && input.token.value.pageId == input.pageId && input.token.value.revisionNo == input.lastKnown
  }

  /** One of the client's pending ids is this one, trimmed. */
  predicate Awaits(pending: seq<string>, id: string) {
    id != "" && exists j :: 0 <= j < |pending| && TrimSpace(pending[j]) == id
  }

  lemma {:induction false} SeenIsAwaited(pending: seq<string>, n: nat, id: string)
    requires n <= |pending|
    ensures SeenBefore(pending, n, id) <==> exists j :: 0 <= j < n && TrimSpace(pending[j]) == id
    decreases n
  {
    if n > 0 {
      SeenIsAwaited(pending, n - 1, id);
    }
  }

  /** A client at the draft head resumes exactly without a token, or with one of this page and revision. */
  lemma ResumesAtHeadIff(w: World, input: SyncInput)
    requires input.pageId in w.store.pages && HeadRevision(w.store, input.pageId, DraftKind).Some?
    requires HeadRevision(w.store, input.pageId, DraftKind).value.no == input.lastKnown
    ensures Resumes(w, input)
            <==> input.token.None? || (input.token.value.pageId == input.pageId && input.token.value.revisionNo == input.lastKnown)
  {
  }

  lemma {:induction false} SinceIsFilter(window: seq<Entry>, n: nat, from: int, e: Entry)
    requires n <= |window|
    ensures e in SinceFirst(window, n, from) <==> exists i :: 0 <= i < n && window[i] == e && e.revisionNo > from
    decreases n
  {
    if n > 0 {
      SinceIsFilter(window, n - 1, from, e);
    }
  }

  /** The entry is a patch, and the client waits for its id. */
  predicate IsAwaitedPatch(e: Entry, pending: seq<string>) {
    e.kind == CollabPatchEntry && Awaits(pending, TrimSpace(e.patchId))
  }

  lemma ReplayedIffAwaited(w: World, input: SyncInput, e: Entry)
    requires e in EntriesSince(w, input)
    ensures IsReplayedPatch(e, ReplayedIds(w, input)) <==> IsAwaitedPatch(e, input.pending)
  {
    var id, entries := TrimSpace(e.patchId), EntriesSince(w, input);
    var k :| 0 <= k < |entries| && entries[k] == e;
    assert InEntries(entries, id);
    SelectionMembers(input.pending, |input.pending|, Known(w.store, input.pageId, entries), id);
    SeenIsAwaited(input.pending, |input.pending|, id);
  }

  /**
   A client elsewhere resumes exactly with a token of this page and its revision, if the window
   has an entry above that revision and each such entry is a patch the client waits for.
   */
  lemma ResumesBelowHeadIff(w: World, input: SyncInput)
    requires input.pageId in w.store.pages && HeadRevision(w.store, input.pageId, DraftKind).Some?
    requires HeadRevision(w.store, input.pageId, DraftKind).value.no != input.lastKnown
    ensures var window := EntriesOf(w.windows, input.pageId);
            Resumes(w, input)
            <==> && TokenFits(input) && (exists i :: 0 <= i < |window| && window[i].revisionNo > input.lastKnown)
                 && forall i :: 0 <= i < |window| && window[i].revisionNo > input.lastKnown ==> IsAwaitedPatch(window[i], input.pending)
  {
    var window, entries := EntriesOf(w.windows, input.pageId), EntriesSince(w, input);
    forall e ensures e in entries <==> exists i :: 0 <= i < |window| && window[i] == e && e.revisionNo > input.lastKnown {
      SinceIsFilter(window, |window|, input.lastKnown, e);
    }
    forall e | e in entries ensures IsReplayedPatch(e, ReplayedIds(w, input)) <==> IsAwaitedPatch(e, input.pending) {
      ReplayedIffAwaited(w, input, e);
    }
    SinceDecides(window, entries, input, ReplayedIds(w, input));
  }

  lemma SinceDecides(window: seq<Entry>, entries: seq<Entry>, input: SyncInput, replayed: seq<string>)
    requires forall e :: e in entries <==> exists i :: 0 <= i < |window| && window[i] == e && e.revisionNo > input.lastKnown
    requires forall e :: e in entries ==> (IsReplayedPatch(e, replayed) <==> IsAwaitedPatch(e, input.pending))
    ensures entries != [] <==> exists i :: 0 <= i < |window| && window[i].revisionNo > input.lastKnown
    ensures (forall i :: 0 <= i < |entries| ==> IsReplayedPatch(entries[i], replayed))
            <==> forall i :: 0 <= i < |window| && window[i].revisionNo > input.lastKnown ==> IsAwaitedPatch(window[i], input.pending)
  {
    if entries != [] {
      assert entries[0] in entries;
    }
    forall i | 0 <= i < |window| && window[i].revisionNo > input.lastKnown ensures window[i] in entries {
    }
    forall i | 0 <= i < |entries| ensures entries[i] in entries {
    }
  }

  /** A page without a draft head, or no page at all, is never resumed. */
  lemma NothingToResume(w: World, input: SyncInput)
    requires input.pageId !in w.store.pages || HeadRevision(w.store, input.pageId, DraftKind).None?
    ensures !Resumes(w, input)
  {
  }

  /** The token names the page and revision it was made at, and the newest entry the client was told of. */
  lemma TokenMeans(p: string, r: Revision, entries: seq<Entry>)
    ensures var token := BuildToken(p, r, entries);
            && token.pageId == p && token.revisionId == r.id && token.revisionNo == r.no
            && (entries == [] ==> token.headNo == 0 && token.headPatchId == "")
            && (forall e :: entries != [] && e == entries[|entries| - 1] ==> token.headNo == e.revisionNo && token.headPatchId == e.patchId)
  {
  }

  /**
   Round trip: the token of any answer, handed back with the number it came with while the
   draft head is still that one, lets the client resume, whatever it waits for.
   */
  lemma TokenResumes(w: World, answered: SyncInput, later: World, pending: seq<string>)
    requires answered.pageId in w.store.pages && HeadRevision(w.store, answered.pageId, DraftKind).Some?
    requires answered.pageId in later.store.pages && HeadRevision(later.store, answered.pageId, DraftKind).Some?
    requires HeadRevision(later.store, answered.pageId, DraftKind).value.no == HeadRevision(w.store, answered.pageId, DraftKind).value.no
    ensures var r := HeadRevision(w.store, answered.pageId, DraftKind).value;
            var token := BuildToken(answered.pageId, r, EntriesSince(w, answered));
            Resumes(later, SyncInput(answered.pageId, r.no, pending, Some(token)))
  {
    var r := HeadRevision(w.store, answered.pageId, DraftKind).value;
    TokenMeans(answered.pageId, r, EntriesSince(w, answered));
    ResumesAtHeadIff(later, SyncInput(answered.pageId, r.no, pending, Some(BuildToken(answered.pageId, r, EntriesSince(w, answered)))));
  }

  // ------------------------------------------------------------------------------ soundness

  /** The revision is a patch, and the id its commit carried is, trimmed, one of the client's pending ids. */
  ghost predicate IsPendingPatch(r: Revision, carried: string -> string, pending: seq<string>) {
    && r.via == SavedByPatch
    && TrimSpace(carried(r.id)) != "" && SeenBefore(pending, |pending|, TrimSpace(carried(r.id)))
  }

  /** The revisions numbered above `from` are all pending patches of the client. */
  ghost predicate AllPending(revs: seq<Revision>, carried: string -> string, from: int, pending: seq<string>) {
    forall j :: 0 <= j < |revs| && revs[j].no > from ==> IsPendingPatch(revs[j], carried, pending)
  }

  predicate Names(entries: seq<Entry>, id: string) {
    exists k :: 0 <= k < |entries| && entries[k].revisionId == id
  }

  predicate HasEntry(window: seq<Entry>, r: Revision) {
    Names(window, r.id)
  }

  /** Every revision numbered above `from` has its entry in the window. */
  predicate Covers(window: seq<Entry>, revs: seq<Revision>, from: int) {
    forall j :: 0 <= j < |revs| && revs[j].no > from ==> HasEntry(window, revs[j])
  }

  /** Those of them that have no entry are all pending patches of the client. */
  ghost predicate UncoveredPending(window: seq<Entry>, revs: seq<Revision>, carried: string -> string, from: int,
                                   pending: seq<string>) {
    forall j :: 0 <= j < |revs| && revs[j].no > from && !HasEntry(window, revs[j]) ==> IsPendingPatch(revs[j], carried, pending)
  }

  /** The entry logs a stored revision, with the patch id its commit carried. */
  ghost predicate Tells(e: Entry, revs: seq<Revision>, carried: string -> string) {
    var i := RevisionIndex(revs, e.revisionId);
    i < |revs| && e.revisionNo == revs[i].no && e.kind == EntryKindOf(revs[i].via) && e.patchId == carried(e.revisionId)
  }

  ghost predicate TellsTruth(window: seq<Entry>, revs: seq<Revision>, carried: string -> string) {
    forall k :: 0 <= k < |window| ==> Tells(window[k], revs, carried)
  }

  lemma {:induction false} SinceMembers(entries: seq<Entry>, n: nat, from: int, i: nat)
    requires i < n <= |entries| && entries[i].revisionNo > from
    ensures entries[i] in SinceFirst(entries, n, from)
    decreases n
  {
    if i < n - 1 {
      SinceMembers(entries, n - 1, from, i);
    }
  }

  /** The window's entries above the client's revision name pending patches. */
  ghost predicate NamesPending(window: seq<Entry>, from: int, pending: seq<string>) {
    forall i :: 0 <= i < |window| && window[i].revisionNo > from ==>
      && window[i].kind == CollabPatchEntry
      && TrimSpace(window[i].patchId) != "" && SeenBefore(pending, |pending|, TrimSpace(window[i].patchId))
  }

  lemma ResumedWindowNamesPending(w: World, input: SyncInput)
    requires Resumes(w, input) && HeadRevision(w.store, input.pageId, DraftKind).value.no != input.lastKnown
    ensures NamesPending(EntriesOf(w.windows, input.pageId), input.lastKnown, input.pending)
  {
    var window := EntriesOf(w.windows, input.pageId);
    forall i | 0 <= i < |window| && window[i].revisionNo > input.lastKnown
      ensures window[i].kind == CollabPatchEntry
      ensures TrimSpace(window[i].patchId) != "" && SeenBefore(input.pending, |input.pending|, TrimSpace(window[i].patchId))
    {
      SinceMembers(window, |window|, input.lastKnown, i);
      ResumedEntryIsPending(w, input, window[i]);
    }
  }

  lemma ResumedEntryIsPending(w: World, input: SyncInput, e: Entry)
    requires Resumes(w, input) && e in EntriesSince(w, input)
    requires HeadRevision(w.store, input.pageId, DraftKind).value.no != input.lastKnown
    ensures e.kind == CollabPatchEntry
    ensures TrimSpace(e.patchId) != "" && SeenBefore(input.pending, |input.pending|, TrimSpace(e.patchId))
  {
    var k :| 0 <= k < |EntriesSince(w, input)| && EntriesSince(w, input)[k] == e;
    assert IsReplayedPatch(EntriesSince(w, input)[k], ReplayedIds(w, input));
    SelectionMembers(input.pending, |input.pending|, Known(w.store, input.pageId, EntriesSince(w, input)),
                     TrimSpace(e.patchId));
  }

  lemma LoggedRevisionIsPending(window: seq<Entry>, revs: seq<Revision>, carried: string -> string, from: int,
                                pending: seq<string>, j: nat)
    requires UniqueFirst(revs, |revs|) && TellsTruth(window, revs, carried) && NamesPending(window, from, pending)
    requires j < |revs| && revs[j].no > from && HasEntry(window, revs[j])
    ensures IsPendingPatch(revs[j], carried, pending)
  {
    var k :| 0 <= k < |window| && window[k].revisionId == revs[j].id;
    UniqueAt(revs, |revs|, j);
    assert Tells(window[k], revs, carried);
  }

  /**
   When a client whose revision is not the head may resume, every revision it has not seen is
   one of its own pending patches exactly when those without an entry in the window are; so it
   is whenever each of them has its entry. All that is asked of the window is that its
   entries are true: whether some are missing, late or out of order does not matter.
   */
  lemma ResumeIsSound(w: World, carried: string -> string, input: SyncInput)
    requires UniqueFirst(RevisionsOf(w.store, input.pageId), |RevisionsOf(w.store, input.pageId)|)
    requires TellsTruth(EntriesOf(w.windows, input.pageId), RevisionsOf(w.store, input.pageId), carried)
    requires Resumes(w, input) && HeadRevision(w.store, input.pageId, DraftKind).value.no != input.lastKnown
    ensures var revs, window := RevisionsOf(w.store, input.pageId), EntriesOf(w.windows, input.pageId);
            && (AllPending(revs, carried, input.lastKnown, input.pending)
                <==> UncoveredPending(window, revs, carried, input.lastKnown, input.pending))
            && (Covers(window, revs, input.lastKnown) ==> AllPending(revs, carried, input.lastKnown, input.pending))
  {
    var revs, window := RevisionsOf(w.store, input.pageId), EntriesOf(w.windows, input.pageId);
    ResumedWindowNamesPending(w, input);
    forall j | 0 <= j < |revs| && revs[j].no > input.lastKnown && HasEntry(window, revs[j])
      ensures IsPendingPatch(revs[j], carried, input.pending)
    {
      LoggedRevisionIsPending(window, revs, carried, input.lastKnown, input.pending, j);
    }
  }

  // ---------------------------------------------------------------- requests one at a time

  /** The patch id that the arrival of a revision's entry carried. */
  function CarriedIn(revs: seq<Revision>, log: seq<Arrival>): string -> string {
    id =>
      var j := RevisionIndex(revs, id);
      if 0 < j <= |log| then log[j - 1].entry.patchId else ""
  }

  lemma {:induction false} HistoryIsUnique(revs: seq<Revision>, n: nat)
    requires HistoryOk(revs) && n <= |revs|
    ensures UniqueFirst(revs, n)
    decreases n
  {
    if n > 0 {
      HistoryIsUnique(revs, n - 1);
      FoundById(revs, n - 1);
      assert UniqueNext(revs, n - 1);
    }
  }

  lemma EntryTells(e: Entry, revs: seq<Revision>, log: seq<Arrival>, j: nat)
    requires RevisionIndex(revs, e.revisionId) == j && 0 < j <= |log| && j < |revs|
    requires Logs(e, revs[j]) && e == log[j - 1].entry
    ensures Tells(e, revs, CarriedIn(revs, log))
  {
  }

  lemma LatestEntryTells(window: seq<Entry>, log: seq<Arrival>, revs: seq<Revision>, i: nat)
    requires HistoryOk(revs) && LogsLatest(window, log, revs) && i < |window|
    ensures Tells(window[i], revs, CarriedIn(revs, log))
  {
    var j := |revs| - |window| + i;
    var e := window[i];
    assert e == log[j - 1].entry && Logs(e, revs[j]);
    FoundById(revs, j);
    EntryTells(e, revs, log, j);
  }

  lemma LatestEntriesTell(window: seq<Entry>, log: seq<Arrival>, revs: seq<Revision>)
    requires HistoryOk(revs) && LogsLatest(window, log, revs)
    ensures TellsTruth(window, revs, CarriedIn(revs, log))
  {
    forall i | 0 <= i < |window| ensures Tells(window[i], revs, CarriedIn(revs, log)) {
      LatestEntryTells(window, log, revs, i);
    }
  }

  /** Only revisions before the window's first can lack an entry. */
  lemma LatestAreCovered(window: seq<Entry>, log: seq<Arrival>, revs: seq<Revision>, j: nat)
    requires LogsLatest(window, log, revs) && |revs| - |window| <= j < |revs|
    ensures HasEntry(window, revs[j])
  {
    var i := j - (|revs| - |window|);
    assert Logs(window[i], revs[|revs| - |window| + i]);
  }

  lemma ReachingBackCovers(window: seq<Entry>, log: seq<Arrival>, revs: seq<Revision>, from: int)
    requires HistoryOk(revs) && LogsLatest(window, log, revs) && window != [] && window[0].revisionNo <= from + 1
    ensures Covers(window, revs, from)
  {
    assert Logs(window[0], revs[|revs| - |window|]);
    NumbersUpTo(revs, |revs| - |window|);
    forall j | 0 <= j < |revs| && revs[j].no > from ensures HasEntry(window, revs[j]) {
      NumbersUpTo(revs, j);
      LatestAreCovered(window, log, revs, j);
    }
  }

  lemma UncoveredAreEarliest(window: seq<Entry>, log: seq<Arrival>, revs: seq<Revision>, carried: string -> string, from: int,
                             pending: seq<string>)
    requires LogsLatest(window, log, revs) && AllPending(revs[..|revs| - |window|], carried, from, pending)
    ensures UncoveredPending(window, revs, carried, from, pending)
  {
    forall j | 0 <= j < |revs| && revs[j].no > from && !HasEntry(window, revs[j])
      ensures IsPendingPatch(revs[j], carried, pending)
    {
      if j < |revs| - |window| {
        assert revs[..|revs| - |window|][j] == revs[j];
      } else {
        LatestAreCovered(window, log, revs, j);
      }
    }
  }

  lemma WindowTells(h: History, p: string)
    requires PageOk(h.world.store, p) && WindowOk(h, p)
    ensures var revs, log, window := RevisionsOf(h.world.store, p), ArrivalsOf(h, p), EntriesOf(h.world.windows, p);
            && HistoryOk(revs) && LogsLatest(window, log, revs) && |window| < |revs|
            && UniqueFirst(revs, |revs|) && TellsTruth(window, revs, CarriedIn(revs, log))
  {
    var revs, log, window := RevisionsOf(h.world.store, p), ArrivalsOf(h, p), EntriesOf(h.world.windows, p);
    WindowLogsLatest(h, p);
    HistoryIsUnique(revs, |revs|);
    LatestEntriesTell(window, log, revs);
  }

  /**
   The unseen revisions are all pending patches exactly when those before the window's first
   are; and so they are when the window reaches back to revision `from`.
   */
  ghost predicate EarliestTell(window: seq<Entry>, log: seq<Arrival>, revs: seq<Revision>, from: int, pending: seq<string>) {
    var carried := CarriedIn(revs, log);
    && |revs| == |log| + 1 && |window| < |revs|
    && (AllPending(revs, carried, from, pending) <==> AllPending(revs[..|revs| - |window|], carried, from, pending))
    && (window != [] && window[0].revisionNo <= from + 1 ==> AllPending(revs, carried, from, pending))
  }

  lemma LatestWindowIsSound(w: World, log: seq<Arrival>, input: SyncInput, revs: seq<Revision>, window: seq<Entry>)
    requires revs == RevisionsOf(w.store, input.pageId) && window == EntriesOf(w.windows, input.pageId)
    requires HistoryOk(revs) && LogsLatest(window, log, revs) && |window| < |revs|
    requires UniqueFirst(revs, |revs|) && TellsTruth(window, revs, CarriedIn(revs, log))
    requires Resumes(w, input) && HeadRevision(w.store, input.pageId, DraftKind).value.no != input.lastKnown
    ensures EarliestTell(window, log, revs, input.lastKnown, input.pending)
  {
    ResumeIsSound(w, CarriedIn(revs, log), input);
    EarliestDecide(window, log, revs, CarriedIn(revs, log), input.lastKnown, input.pending);
  }

  /**
   Along runs in which each request appends its entry before the next one starts, the
   revisions without an entry are those before the window's first; and none is unseen when
   the window still reaches back to the client's revision.
   */
  lemma ResumeOneAtATimeIsSound(h: History, input: SyncInput)
    requires PageOk(h.world.store, input.pageId) && WindowOk(h, input.pageId) && Resumes(h.world, input)
    requires HeadRevision(h.world.store, input.pageId, DraftKind).value.no != input.lastKnown
    ensures EarliestTell(EntriesOf(h.world.windows, input.pageId), ArrivalsOf(h, input.pageId),
                         RevisionsOf(h.world.store, input.pageId), input.lastKnown, input.pending)
  {
    WindowTells(h, input.pageId);
    LatestWindowIsSound(h.world, ArrivalsOf(h, input.pageId), input, RevisionsOf(h.world.store, input.pageId),
                        EntriesOf(h.world.windows, input.pageId));
  }

  lemma EarliestDecide(window: seq<Entry>, log: seq<Arrival>, revs: seq<Revision>, carried: string -> string, from: int,
                       pending: seq<string>)
    requires HistoryOk(revs) && LogsLatest(window, log, revs)
    requires UncoveredPending(window, revs, carried, from, pending) ==> AllPending(revs, carried, from, pending)
    requires Covers(window, revs, from) ==> AllPending(revs, carried, from, pending)
    ensures AllPending(revs, carried, from, pending) <==> AllPending(revs[..|revs| - |window|], carried, from, pending)
    ensures window != [] && window[0].revisionNo <= from + 1 ==> AllPending(revs, carried, from, pending)
  {
    if AllPending(revs[..|revs| - |window|], carried, from, pending) {
      UncoveredAreEarliest(window, log, revs, carried, from, pending);
    }
    if window != [] && window[0].revisionNo <= from + 1 {
      ReachingBackCovers(window, log, revs, from);
    }
  }

  // ------------------------------------------------------ an unsound resume does occur

  const AUTOSAVE := AutosaveInput("p", "w", "u", 1, "", BLANK)
  const COMMIT := CommitInput("p", "w", "u", 2, "x", BLANK)

  /** A page is created, saved by someone else, then patched by the client. */
  const OUTRUN: seq<Turn> :=
    [Ask(CreateRequest(CreateInput("p", "w", "t", "t", BLANK, "u")), CREATION),
     Ask(SaveRequest(AUTOSAVE), CHANGE), Ask(SaveRequest(COMMIT), LATE)]

  /** The client saw the first revision only and waits for its patch. */
  const WAITING := SyncInput("p", 1, ["x"], Some(ResumeToken("p", "r1", 1, 0, "")))

  /** The ids of all outbox records are among these. */
  predicate RecordsAmong(outbox: seq<OutboxRecord>, ids: seq<string>) {
    forall i :: 0 <= i < |outbox| ==> outbox[i].id in ids
  }

  /** One live page "p" at this draft number, with this window, and no key recorded. */
  ghost predicate OnePage(h: History, no: nat, window: seq<Entry>, ids: seq<string>) {
    var st := h.world.store;
    && PageOk(st, "p") && st.pages["p"].status != ArchivedStatus && st.pages["p"].draftNo == no > 0
    && |RevisionsOf(st, "p")| == no && EntriesOf(h.world.windows, "p") == window
    && RecordsAmong(st.outbox, ids) && h.world.limit == 1 && h.now == no && h.clock == no
  }

  lemma BlankPlan(input: SaveInput, page: Page, baseId: string, env: Env)
    requires input.document == BLANK && env.files == None && env.unavailable == {}
    ensures PlanSave(input, page, baseId, env).Ok?
  {
    BlankHydrates();
  }

  /** A save whose checks pass is concluded. */
  lemma SaveGoesThrough(w: World, input: SaveInput, env: Env, write: Write)
    requires PageOk(w.store, "p") && input.pageId == "p" && w.store.pages["p"].status != ArchivedStatus
    requires input.base == w.store.pages["p"].draftNo > 0 && Recorded(w.store, "p", input.key).None?
    requires HeadRevision(w.store, "p", DraftKind).Some?
    requires PlanSave(input, w.store.pages["p"], HeadRevision(w.store, "p", DraftKind).value.id, env) == Ok(write)
    ensures Save(w, input, env)
            == Conclude(w, write, SaveConflict(w.store, input, w.store.pages["p"], StoreFailed(StaleRevision)), env.clock)
  {
    assert TrimSpace("p") == "p";
  }

  /** What a save whose checks pass leaves of a world with page "p". */
  lemma SaveLands(w: World, input: SaveInput, env: Env) returns (write: Write)
    requires PageOk(w.store, "p") && w.store.pages["p"].status != ArchivedStatus && FreshId(w.store, env.revisionId)
    requires input.pageId == "p" && (input.via == SavedByRest || input.via == SavedByPatch)
    requires input.base == w.store.pages["p"].draftNo > 0 && Recorded(w.store, "p", input.key).None?
    requires PlanSave(input, w.store.pages["p"], w.store.pages["p"].draftId, env).Ok?
    ensures PlanSave(input, w.store.pages["p"], w.store.pages["p"].draftId, env) == Ok(write)
    ensures Continues(w.store, write, env) && Locked(w.store, write).Ok? && write.revision.pageId == "p"
    ensures write.revision.via == input.via && write.revision.kind == DraftKind
    ensures write.entry == EntryOf(write.revision, input.workspaceId, input.patchId)
    ensures input.key == "" ==> write.record.None?
    ensures Save(w, input, env).world == Logged(w.(store := Locked(w.store, write).value), write.entry, env.clock)
  {
    HeadIsFound(w.store, "p");
    write := PlanSave(input, w.store.pages["p"], w.store.pages["p"].draftId, env).value;
    PlannedSaveContinues(w.store, input, env);
    PlannedWritePasses(w.store, write);
    SaveGoesThrough(w, input, env, write);
  }

  /** The records of a write take the ids the request drew. */
  lemma RecordsStayAmong(before: seq<OutboxRecord>, ids: seq<string>, drawn: RecordIds, p: string, events: seq<Event>, now: int)
    requires |events| <= 4 && RecordsAmong(before, ids)
    ensures RecordsAmong(before + Records(drawn, p, events, now), ids + drawn)
  {
  }

  lemma SavedOnePage(st: State, write: Write, env: Env, spare: string)
    requires PageOk(st, "p") && Continues(st, write, env) && Locked(st, write).Ok? && write.revision.pageId == "p"
    requires write.revision.kind == DraftKind && FreshId(st, write.revision.id)
    ensures var after := Locked(st, write).value;
            && PageOk(after, "p") && RevisionsOf(after, "p") == RevisionsOf(st, "p") + [write.revision]
            && after.pages["p"].status == st.pages["p"].status && after.pages["p"].draftNo == write.revision.no
            && write.revision.no == |RevisionsOf(st, "p")| + 1
            && (write.record.None? ==> after.idempotencies == st.idempotencies)
            && (FreshId(st, spare) && spare != write.revision.id ==> FreshId(after, spare))
            && after.outbox == st.outbox + Records(env.recordIds, "p", RevisionEvents(write.page, write.revision), env.now)
  {
    AddedRevision(st, write, env);
    HeadsMove(st.pages["p"], RevisionsOf(st, "p"), write.revision);
    GainedPageOk(st, Locked(st, write).value, write.page, write.revision);
    if FreshId(st, spare) && spare != write.revision.id {
      GainedFreshId(st, Locked(st, write).value, write.page, write.revision, spare);
    }
  }

  lemma LegalTurn(h: History, request: Request, env: Env, ids: seq<string>)
    requires Drawn(h.world.store, request, env) && WellFormed(request) && RecordsAmong(h.world.store.outbox, ids)
    requires forall i, j :: 0 <= i < j < 4 ==> env.recordIds[i] != env.recordIds[j]
    requires forall j :: 0 <= j < 4 ==> env.recordIds[j] !in ids
    requires 0 < env.now && h.now <= env.now && h.clock <= env.clock
    ensures Legal(h, Ask(request, env))
  {
  }

  lemma SaveTurnLeaves(h: History, input: SaveInput, env: Env, next: History)
    requires next == Next(h, Ask(SaveRequest(input), env))
    ensures next.world == Save(h.world, input, env).world && next.now == env.now && next.clock == env.clock
  {
  }

  /** The store after the save and the entry it logs make up the next state. */
  lemma OnePageFurther(h: History, next: History, after: State, r: Revision, e: Entry, env: Env, no: nat, window: seq<Entry>,
                       ids: seq<string>)
    requires OnePage(h, no, window, ids) && next.now == env.now == no + 1 && next.clock == env.clock == no + 1
    requires next.world == Logged(h.world.(store := after), e, env.clock) && e.pageId == "p"
    requires PageOk(after, "p") && after.pages["p"].status != ArchivedStatus && after.pages["p"].draftNo == no + 1
    requires RevisionsOf(after, "p") == RevisionsOf(h.world.store, "p") + [r] && RecordsAmong(after.outbox, ids + env.recordIds)
    ensures OnePage(next, no + 1, Appended(window, e, WINDOW_TTL, 1, env.clock), ids + env.recordIds)
  {
  }

  /** One save of the blank document, as a turn. */
  lemma BlankSaveTurn(h: History, input: SaveInput, env: Env, no: nat, window: seq<Entry>, ids: seq<string>, spare: string)
    returns (r: Revision, next: History)
    requires OnePage(h, no, window, ids) && FreshId(h.world.store, env.revisionId)
    requires input.pageId == "p" && input.document == BLANK && env.files == None && env.unavailable == {}
    requires input.via == SavedByRest || input.via == SavedByPatch
    requires input.base == no && Recorded(h.world.store, "p", input.key).None? && env.now == env.clock == no + 1
    ensures next == Next(h, Ask(SaveRequest(input), env)) && r.via == input.via && r.no == no + 1 && r.createdAt == env.now
    ensures OnePage(next, no + 1, Appended(window, EntryOf(r, input.workspaceId, input.patchId), WINDOW_TTL, 1, env.clock),
                    ids + env.recordIds)
    ensures RevisionsOf(next.world.store, "p") == RevisionsOf(h.world.store, "p") + [r]
    ensures input.key == "" ==> next.world.store.idempotencies == h.world.store.idempotencies
    ensures FreshId(h.world.store, spare) && spare != env.revisionId ==> FreshId(next.world.store, spare)
  {
    BlankPlan(input, h.world.store.pages["p"], h.world.store.pages["p"].draftId, env);
    var write := SaveLands(h.world, input, env);
    r := write.revision;
    next := Next(h, Ask(SaveRequest(input), env));
    SaveTurnLeaves(h, input, env, next);
    SavedOnePage(h.world.store, write, env, spare);
    RecordsStayAmong(h.world.store.outbox, ids, env.recordIds, "p", RevisionEvents(write.page, r), env.now);
    OnePageFurther(h, next, next.world.store, r, write.entry, env, no, window, ids);
  }

  lemma FirstTurn() returns (h: History)
    ensures h == Next(Start(1), OUTRUN[0]) && h.world == World(Created().store, map[], 1) && h.now == 1 && h.clock == 1
  {
    h := Next(Start(1), OUTRUN[0]);
  }

  lemma CreatedRecords()
    ensures RecordsAmong(Created().store.outbox, CREATION.recordIds)
  {
    BlankHydrates();
    assert TrimSpace("w") == "w" && TrimSpace("t") == "t";
  }

  lemma CreateTurn() returns (h: History)
    ensures h == Next(Start(1), OUTRUN[0]) && OnePage(h, 1, [], CREATION.recordIds) && h.world.store.idempotencies == map[]
    ensures FreshId(h.world.store, "r2") && FreshId(h.world.store, "r3")
  {
    h := FirstTurn();
    CreatedRecords();
    CreatedPageIsLive();
  }

  /** What the commit's turn leaves, three revisions and one entry. */
  ghost predicate Outran(h: History, r: Revision, s: Revision) {
    && OnePage(h, 3, [EntryOf(s, "w", "x")], CREATION.recordIds + CHANGE.recordIds + LATE.recordIds)
    && |RevisionsOf(h.world.store, "p")| == 3 && RevisionsOf(h.world.store, "p")[1] == r
    && r.no == 2 && r.via == SavedByRest && s.no == 3 && s.via == SavedByPatch
  }

  lemma FirstTurnIsLegal()
    ensures Legal(Start(1), OUTRUN[0])
  {
    LegalTurn(Start(1), OUTRUN[0].request, CREATION, []);
  }

  lemma AutosaveTurn(h: History) returns (r: Revision, next: History)
    requires OnePage(h, 1, [], CREATION.recordIds) && h.world.store.idempotencies == map[]
    requires FreshId(h.world.store, "r2") && FreshId(h.world.store, "r3")
    ensures Legal(h, OUTRUN[1]) && next == Next(h, OUTRUN[1])
    ensures OnePage(next, 2, Appended([], EntryOf(r, "w", ""), WINDOW_TTL, 1, 2), CREATION.recordIds + CHANGE.recordIds)
    ensures RevisionsOf(next.world.store, "p") == RevisionsOf(h.world.store, "p") + [r]
    ensures r.via == SavedByRest && r.no == 2 && r.createdAt == 2
    ensures next.world.store.idempotencies == map[] && FreshId(next.world.store, "r3")
  {
    assert AUTOSAVE.key == "";
    LegalTurn(h, OUTRUN[1].request, CHANGE, CREATION.recordIds);
    r, next := BlankSaveTurn(h, AUTOSAVE, CHANGE, 1, [], CREATION.recordIds, "r3");
  }

  lemma LateIdsAreNew()
    ensures forall i, j :: 0 <= i < j < 4 ==> LATE.recordIds[i] != LATE.recordIds[j]
    ensures forall j :: 0 <= j < 4 ==> LATE.recordIds[j] !in CREATION.recordIds + CHANGE.recordIds
  {
    forall j | 0 <= j < 4 ensures LATE.recordIds[j] !in CREATION.recordIds && LATE.recordIds[j] !in CHANGE.recordIds {
    }
  }

  lemma CommitTurn(h: History, r: Revision) returns (s: Revision, next: History)
    requires OnePage(h, 2, Appended([], EntryOf(r, "w", ""), WINDOW_TTL, 1, 2), CREATION.recordIds + CHANGE.recordIds)
    requires h.world.store.idempotencies == map[] && FreshId(h.world.store, "r3")
    requires RevisionsOf(h.world.store, "p")[1] == r && r.via == SavedByRest && r.no == 2 && r.createdAt == 2
    ensures Legal(h, OUTRUN[2]) && next == Next(h, OUTRUN[2]) && Outran(next, r, s)
  {
    assert TrimSpace("x") == "x";
    LateIdsAreNew();
    LegalTurn(h, OUTRUN[2].request, LATE, CREATION.recordIds + CHANGE.recordIds);
    s, next := BlankSaveTurn(h, COMMIT, LATE, 2, Appended([], EntryOf(r, "w", ""), WINDOW_TTL, 1, 2),
                             CREATION.recordIds + CHANGE.recordIds, "");
    OneKept(EntryOf(r, "w", ""), EntryOf(s, "w", "x"));
  }

  /** With a limit of one, only the later entry is left. */
  lemma OneKept(e: Entry, f: Entry)
    requires e.createdAt == 2 && f.createdAt == 3
    ensures Appended(Appended([], e, WINDOW_TTL, 1, 2), f, WINDOW_TTL, 1, 3) == [f]
  {
    assert [] + [e] == [e] && KeepFirst([e], 0, 2 - WINDOW_TTL) == [];
    var both := [e] + [f];
    assert KeepFirst(both, 0, 3 - WINDOW_TTL) == [] && KeepFirst(both, 1, 3 - WINDOW_TTL) == [e];
  }

  lemma OutrunResumes(h: History, r: Revision, s: Revision)
    requires Outran(h, r, s)
    ensures Resumes(h.world, WAITING) && HeadRevision(h.world.store, "p", DraftKind).value.no == 3
  {
    var e := EntryOf(s, "w", "x");
    HeadIsFound(h.world.store, "p");
    NumbersUpTo(RevisionsOf(h.world.store, "p"), 2);
    PatchIsReplayed(h.world.store, e);
    assert EntriesSince(h.world, WAITING) == [e];
  }

  lemma PatchIsReplayed(st: State, e: Entry)
    requires e.revisionNo == 3 && e.kind == CollabPatchEntry && e.patchId == "x"
    ensures Since([e], 1) == [e] && IsReplayedPatch(e, SelectFirst(["x"], 1, Known(st, "p", [e])))
  {
    assert SinceFirst([e], 0, 1) == [];
    assert TrimSpace("x") == "x";
    assert InEntries([e], "x") by {
      assert TrimSpace([e][0].patchId) == "x";
    }
    assert SeenBefore(["x"], 1, "x");
    SelectionMembers(["x"], 1, Known(st, "p", [e]), "x");
  }

  /**
   Without that coverage the test passes wrongly in a legal run: with a window of one entry,
   the client's own patch pushes somebody else's autosave out of the window, and the client
   may resume although it never saw that revision.
   */
  lemma UncoveredResumeIsUnsound() returns (h: History)
    ensures LegalFirst(1, OUTRUN, 3) && h == RunFirst(1, OUTRUN, 3)
    ensures Resumes(h.world, WAITING) && HeadRevision(h.world.store, "p", DraftKind).value.no > WAITING.lastKnown
    ensures var revs, log := RevisionsOf(h.world.store, "p"), ArrivalsOf(h, "p");
            && |revs| == |log| + 1 && !AllPending(revs, CarriedIn(revs, log), WAITING.lastKnown, WAITING.pending)
  {
    FirstTurnIsLegal();
    var first := CreateTurn();
    var r, second := AutosaveTurn(first);
    var s, third := CommitTurn(second, r);
    ThreeTurns(OUTRUN, 3, first, second, third);
    h := third;
    OutrunResumes(h, r, s);
    RunsKeepWindowsOk(1, OUTRUN, 3);
    WindowLogsLatest(h, "p");
    assert RevisionsOf(h.world.store, "p")[1] == r;
  }

  lemma ThreeTurns(turns: seq<Turn>, n: nat, first: History, second: History, third: History)
    requires n == 3 && |turns| == 3
    requires first == Next(Start(1), turns[0]) && second == Next(first, turns[1]) && third == Next(second, turns[2])
    requires Legal(Start(1), turns[0]) && Legal(first, turns[1]) && Legal(second, turns[2])
    ensures LegalFirst(1, turns, n) && RunFirst(1, turns, n) == third
  {
    var k: nat := n - 2;
    assert RunFirst(1, turns, k) == RunNext(1, turns, k - 1) == RunAfter(1, turns, k - 1) == first;
    assert RunFirst(1, turns, k + 1) == RunNext(1, turns, k) == RunAfter(1, turns, k) == second;
    assert RunFirst(1, turns, n) == RunNext(1, turns, k + 1) == RunAfter(1, turns, k + 1) == third;
    assert LegalNext(1, turns, k - 1) && LegalNext(1, turns, k) && LegalNext(1, turns, k + 1);
  }
}
