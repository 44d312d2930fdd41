/** Replay windows when requests interleave: a use case appends its entry after its write. */
module LateAppends {
  import opened Wrappers
  import opened Text
  import opened Sequences
  import opened Documents
  import opened Patches
  import opened PageStore
  import opened PageEvents
  import opened ReplayWindow
  import opened UseCases
  import opened Lifecycle
  import opened DraftChain
  import opened PageCalls
  import opened PageInterleaving
  import opened Collaboration
  import opened CollaborationSafety
  import opened Resume
  import CollaborationGuarantees
  import Guarantees

  /**
   The interleaved system with its replay windows. Entries of landed writes are due until they
   are appended, in any order, or lost with their request. `carried` remembers with which
   patch id each revision was written, `gone` whose entries were lost or dropped.
   */
  datatype Replaying = Replaying(
    system: System, windows: map<string, seq<Entry>>, due: seq<Entry>, carried: map<string, string>, gone: set<string>,
    limit: nat)

  datatype ReplayAction =
    | Act(action: Action)
    | Append(i: nat, clock: int)
    | Lose(i: nat)

  /** The revision write that lands in this step, if one does. */
  function LandedIn(st: State, call: PageCall, pc: PagePc, env: Env): Option<Write> {
    if Lands(st, call, pc, env) && PlannedAt(call, pc, env).value.RevisionWrite? then PlannedAt(call, pc, env) else None
  }

  /** Likewise in an action of the system. */
  function Landing(s: System, a: Action): Option<Write> {
    if !a.Advance? || a.id !in s.calls || AskedOf(s.calls[a.id]).None? then None
    else
      var q := AskedOf(s.calls[a.id]).value;
      LandedIn(s.store, q.call, q.pc, a.env)
  }

  function ReplayDo(l: Replaying, a: ReplayAction): Replaying {
    match a
    case Act(action) =>
      var t := l.(system := Do(l.system, action));
      (match Landing(l.system, action)
       case None => t
       case Some(write) => if write.RevisionWrite? then Due(t, write.entry) else t)
    case Append(i, clock) => if i < |l.due| then Appending(l, i, clock) else l
    case Lose(i) => if i < |l.due| then Losing(l, i) else l
  }

  function Due(l: Replaying, e: Entry): Replaying {
    l.(due := l.due + [e], carried := l.carried[e.revisionId := e.patchId])
  }

  function Appending(l: Replaying, i: nat, clock: int): Replaying
    requires i < |l.due|
  {
    var e, before := l.due[i], EntriesOf(l.windows, l.due[i].pageId);
    var next := Appended(before, e, WINDOW_TTL, l.limit, clock);
    l.(windows := l.windows[e.pageId := next], due := RemoveAt(l.due, i), gone := l.gone + Dropped(before + [e], next))
  }

  function Losing(l: Replaying, i: nat): Replaying
    requires i < |l.due|
  {
    l.(due := RemoveAt(l.due, i), gone := l.gone + {l.due[i].revisionId})
  }

  /** The revisions that no entry names any more. */
  function Dropped(entries: seq<Entry>, kept: seq<Entry>): set<string> {
    set k | 0 <= k < |entries| && !Names(kept, entries[k].revisionId) :: entries[k].revisionId
  }

  function CarriedBy(carried: map<string, string>): string -> string {
    id => if id in carried then carried[id] else ""
  }

  // ---------------------------------------------------------------------------- invariant

  /** The entry is true of its page. */
  ghost predicate EntryTrue(st: State, carried: map<string, string>, p: string, e: Entry) {
    e.pageId == p && Tells(e, RevisionsOf(st, p), CarriedBy(carried))
  }

  ghost predicate WindowsTrue(l: Replaying) {
    forall p, k :: p in l.windows && 0 <= k < |l.windows[p]| ==> EntryTrue(l.system.store, l.carried, p, l.windows[p][k])
  }

  ghost predicate DueTrue(l: Replaying) {
    forall i :: 0 <= i < |l.due| ==> EntryTrue(l.system.store, l.carried, l.due[i].pageId, l.due[i])
  }

  ghost predicate ReplayInv(l: Replaying, plan: Plan) {
    SystemInv(l.system, plan) && WindowsTrue(l) && DueTrue(l) && AllAccounted(l)
  }

  predicate HasDue(due: seq<Entry>, p: string, id: string) {
    exists k :: 0 <= k < |due| && due[k].pageId == p && due[k].revisionId == id
  }

  /** It is the page's first revision, or its entry is in the window, due, or gone. */
  predicate Accounted(l: Replaying, p: string, no: int, id: string) {
    no == 1 || Names(EntriesOf(l.windows, p), id) || HasDue(l.due, p, id) || id in l.gone
  }

  ghost predicate AllAccounted(l: Replaying) {
    forall p, j :: 0 <= j < |RevisionsOf(l.system.store, p)| ==>
      Accounted(l, p, RevisionsOf(l.system.store, p)[j].no, RevisionsOf(l.system.store, p)[j].id)
  }

  /** What is found under the id is found still, with its number and source. */
  predicate StillFound(xs: seq<Revision>, ys: seq<Revision>, id: string) {
    var i, j := RevisionIndex(xs, id), RevisionIndex(ys, id);
    i < |xs| ==> j < |ys| && ys[j].no == xs[i].no && ys[j].via == xs[i].via
  }

  ghost predicate FoundStill(xs: seq<Revision>, ys: seq<Revision>) {
    forall id :: StillFound(xs, ys, id)
  }

  ghost predicate AllFoundStill(st: State, after: State) {
    forall p :: FoundStill(RevisionsOf(st, p), RevisionsOf(after, p))
  }

  lemma InsertFindsOne(revs: seq<Revision>, k: nat, r: Revision, more: seq<Revision>, id: string)
    requires k <= |revs| && RevisionIndex(revs, r.id) == |revs| && more == InsertAt(revs, k, r)
    ensures StillFound(revs, more, id)
  {
    LookupAfterInsert(revs, k, r, id);
    var i := RevisionIndex(revs, id);
    if i < |revs| {
      assert more[if i < k then i else i + 1] == revs[i];
    }
  }

  lemma InsertFinds(revs: seq<Revision>, k: nat, r: Revision, more: seq<Revision>)
    requires k <= |revs| && RevisionIndex(revs, r.id) == |revs| && more == InsertAt(revs, k, r)
    ensures FoundStill(revs, more) && RevisionIndex(more, r.id) == k
  {
    forall id ensures StillFound(revs, more, id) {
      InsertFindsOne(revs, k, r, more, id);
    }
    LookupAfterInsert(revs, k, r, r.id);
  }

  lemma WriteFinds(st: State, after: State, p: string, r: Revision)
    requires RevisionIndex(RevisionsOf(st, p), r.id) == |RevisionsOf(st, p)|
    requires after.revisions == st.revisions[p := AddSorted(RevisionsOf(st, p), r)]
    ensures AllFoundStill(st, after)
    ensures var revs := RevisionsOf(after, p);
            RevisionIndex(revs, r.id) < |revs| && revs[RevisionIndex(revs, r.id)] == r
  {
    InsertFinds(RevisionsOf(st, p), SortPosition(RevisionsOf(st, p), |RevisionsOf(st, p)|, r.no), r, RevisionsOf(after, p));
  }

  lemma LockedGuard(st: State, write: Write)
    requires Locked(st, write).Ok?
    ensures write.page.id in st.pages && st.pages[write.page.id].draftNo == write.expectedNo
    ensures write.StatusWrite? ==> Locked(st, write).value.revisions == st.revisions
  {
  }

  lemma LockedRevisions(st: State, write: Write)
    requires Locked(st, write).Ok?
    ensures Locked(st, write).value.revisions
            == if write.RevisionWrite? then st.revisions[write.page.id := AddSorted(RevisionsOf(st, write.page.id), write.revision)]
               else st.revisions
  {
    LockedGuard(st, write);
    if write.RevisionWrite? {
      Guarantees.LockedRevision(st, write);
    }
  }

  lemma ReadFinds(st: State, p: string, view: Kind, files: FileResolver)
    ensures AllFoundStill(st, ReadView(World(st, map[], 0), p, view, files).world.store)
  {
    var after := ReadView(World(st, map[], 0), p, view, files).world.store;
    forall q ensures FoundStill(RevisionsOf(st, q), RevisionsOf(after, q)) {
      if after != st && q == p {
        RewrittenFinds(RevisionsOf(st, p), RevisionIndex(RevisionsOf(st, p), ShownId(st.pages[p], view)), files,
                       RevisionsOf(after, p));
      }
    }
  }

  lemma RewrittenFindsOne(revs: seq<Revision>, i: nat, files: FileResolver, more: seq<Revision>, id: string)
    requires i < |revs| && more == revs[i := Rehydrated(revs, i, files)]
    ensures StillFound(revs, more, id)
  {
    IndexAgrees(revs, more, id);
  }

  lemma RewrittenFinds(revs: seq<Revision>, i: nat, files: FileResolver, more: seq<Revision>)
    requires i < |revs| && more == revs[i := Rehydrated(revs, i, files)]
    ensures FoundStill(revs, more)
  {
    forall id ensures StillFound(revs, more, id) {
      RewrittenFindsOne(revs, i, files, more, id);
    }
  }

  // ------------------------------------------------------------------------------- actions

  lemma CreateWrites(st: State, input: CreateInput, env: Env) returns (r: Revision)
    ensures var after := Create(World(st, map[], 0), input, env).world.store;
            after == st || after.revisions == st.revisions[input.pageId := AddSorted(RevisionsOf(st, input.pageId), r)]
    ensures r.id == env.revisionId && r.no == 1
  {
    var hydrated := Hydrate(env.files, Canonical(input.document));
    r := FirstRevision(input, if hydrated.Ok? then hydrated.value else input.document, env);
  }

  lemma CreateFinds(st: State, input: CreateInput, env: Env)
    requires FreshId(st, env.revisionId)
    ensures AllFoundStill(st, Create(World(st, map[], 0), input, env).world.store)
  {
    var after := Create(World(st, map[], 0), input, env).world.store;
    var r := CreateWrites(st, input, env);
    if after != st {
      FreshIsNotFound(st, input.pageId, r.id);
      WriteFinds(st, after, input.pageId, r);
    }
  }

  /** The entry of a landing write is true once the write landed. */
  ghost predicate LandedTrue(st: State, after: State, write: Write) {
    && write.RevisionWrite? && write.entry.pageId == write.revision.pageId && write.entry.revisionId == write.revision.id
    && RevisionIndex(RevisionsOf(st, write.revision.pageId), write.revision.id) == |RevisionsOf(st, write.revision.pageId)|
    && var revs := RevisionsOf(after, write.revision.pageId);
       var i := RevisionIndex(revs, write.revision.id);
       i < |revs| && write.entry.revisionNo == revs[i].no && write.entry.kind == EntryKindOf(revs[i].via)
  }

  lemma PlannedEntry(call: PageCall, pc: PagePc, env: Env, write: Write)
    requires PlannedAt(call, pc, env) == Some(write) && write.RevisionWrite?
    requires pc.AtWrite? && pc.page.id == PageIdOf(call)
    ensures write.revision.pageId == PageIdOf(call) == write.page.id && write.revision.id == env.revisionId
    ensures write.entry.pageId == write.revision.pageId && write.entry.revisionId == write.revision.id
    ensures write.entry.revisionNo == write.revision.no && write.entry.kind == EntryKindOf(write.revision.via)
  {
  }

  lemma LandingFinds(st: State, call: PageCall, pc: PagePc, env: Env, write: Write)
    requires PageCallOk(st, call, pc) && Lands(st, call, pc, env) && PlannedAt(call, pc, env) == Some(write)
    requires FreshId(st, env.revisionId)
    ensures AllFoundStill(st, Locked(st, write).value)
    ensures write.RevisionWrite? ==> LandedTrue(st, Locked(st, write).value, write)
  {
    LockedRevisions(st, write);
    if write.RevisionWrite? {
      PlannedEntry(call, pc, env, write);
      FreshIsNotFound(st, write.page.id, write.revision.id);
      WriteFinds(st, Locked(st, write).value, write.page.id, write.revision);
    }
  }

  lemma PageStepFinds(st: State, call: PageCall, pc: PagePc, env: Env)
    requires PageCallOk(st, call, pc) && FreshId(st, env.revisionId)
    ensures AllFoundStill(st, PageStep(st, call, pc, env).store)
  {
    match call
    case CreateCall(input) => CreateFinds(st, input, env);
    case LoadCall(p, view) => ReadFinds(st, p, view, env.files);
    case _ =>
      StepsOnlyWrite(st, call, pc, env);
      if Lands(st, call, pc, env) {
        LandingFinds(st, call, pc, env, PlannedAt(call, pc, env).value);
      }
  }

  // ------------------------------------------------------------------- no revision from nowhere

  predicate Stored(revs: seq<Revision>, no: int, id: string) {
    exists i :: 0 <= i < |revs| && revs[i].no == no && revs[i].id == id
  }

  /** Each of these revisions is one of those, or has this number and id. */
  ghost predicate OnlyNew(xs: seq<Revision>, ys: seq<Revision>, no: int, id: string) {
    forall j :: 0 <= j < |ys| ==> Stored(xs, ys[j].no, ys[j].id) || (ys[j].no == no && ys[j].id == id)
  }

  /** Page p may have gained one revision, of this number and id; no other page has. */
  ghost predicate AllOnlyNew(st: State, after: State, p: string, no: int, id: string) {
    forall q :: if q == p then OnlyNew(RevisionsOf(st, q), RevisionsOf(after, q), no, id)
                else OnlyNew(RevisionsOf(st, q), RevisionsOf(after, q), 1, "")
  }

  lemma SameIsOnlyNew(xs: seq<Revision>, ys: seq<Revision>, no: int, id: string)
    requires |xs| == |ys| && forall j :: 0 <= j < |ys| ==> xs[j].no == ys[j].no && xs[j].id == ys[j].id
    ensures OnlyNew(xs, ys, no, id)
  {
  }

  lemma InsertIsOnlyNew(revs: seq<Revision>, k: nat, r: Revision, more: seq<Revision>)
    requires k <= |revs| && more == InsertAt(revs, k, r)
    ensures OnlyNew(revs, more, r.no, r.id)
  {
    forall j | 0 <= j < |more| ensures Stored(revs, more[j].no, more[j].id) || (more[j].no == r.no && more[j].id == r.id) {
      if j != k {
        assert revs[if j < k then j else j - 1] == more[j];
      }
    }
  }

  lemma UnchangedIsOnlyNew(st: State, after: State, p: string, no: int, id: string)
    requires after.revisions == st.revisions
    ensures AllOnlyNew(st, after, p, no, id)
  {
    forall q
      ensures if q == p then OnlyNew(RevisionsOf(st, q), RevisionsOf(after, q), no, id)
              else OnlyNew(RevisionsOf(st, q), RevisionsOf(after, q), 1, "")
    {
      SameIsOnlyNew(RevisionsOf(st, q), RevisionsOf(after, q), no, id);
      SameIsOnlyNew(RevisionsOf(st, q), RevisionsOf(after, q), 1, "");
    }
  }

  lemma WriteIsOnlyNew(st: State, after: State, p: string, r: Revision)
    requires after.revisions == st.revisions[p := AddSorted(RevisionsOf(st, p), r)]
    ensures AllOnlyNew(st, after, p, r.no, r.id)
  {
    InsertIsOnlyNew(RevisionsOf(st, p), SortPosition(RevisionsOf(st, p), |RevisionsOf(st, p)|, r.no), r, RevisionsOf(after, p));
    forall q | q != p ensures OnlyNew(RevisionsOf(st, q), RevisionsOf(after, q), 1, "") {
      SameIsOnlyNew(RevisionsOf(st, q), RevisionsOf(after, q), 1, "");
    }
  }

  lemma RewriteIsOnlyNew(st: State, after: State, p: string, i: nat, files: FileResolver, q: string)
    requires i < |RevisionsOf(st, p)|
    requires after == st.(revisions := st.revisions[p := RevisionsOf(st, p)[i := Rehydrated(RevisionsOf(st, p), i, files)]])
    ensures OnlyNew(RevisionsOf(st, q), RevisionsOf(after, q), 1, "")
  {
    SameIsOnlyNew(RevisionsOf(st, q), RevisionsOf(after, q), 1, "");
  }

  lemma ReadIsOnlyNew(st: State, p: string, view: Kind, files: FileResolver, after: State)
    requires after == ReadView(World(st, map[], 0), p, view, files).world.store
    ensures AllOnlyNew(st, after, p, 1, "")
  {
    if after == st {
      UnchangedIsOnlyNew(st, after, p, 1, "");
    } else {
      forall q ensures OnlyNew(RevisionsOf(st, q), RevisionsOf(after, q), 1, "") {
        RewriteIsOnlyNew(st, after, p, RevisionIndex(RevisionsOf(st, p), ShownId(st.pages[p], view)), files, q);
      }
    }
  }

  lemma CreateIsOnlyNew(st: State, input: CreateInput, env: Env, after: State)
    requires after == Create(World(st, map[], 0), input, env).world.store
    ensures AllOnlyNew(st, after, input.pageId, 1, env.revisionId)
  {
    var r := CreateWrites(st, input, env);
    if after == st {
      UnchangedIsOnlyNew(st, after, input.pageId, 1, env.revisionId);
    } else {
      WriteIsOnlyNew(st, after, input.pageId, r);
    }
  }

  lemma SameFinds(st: State)
    ensures AllFoundStill(st, st)
  {
  }

  lemma AdvanceFinds(s: System, plan: Plan, id: nat, env: Env, present: bool, after: State)
    requires SystemInv(s, plan) && Allowed(s, plan, Advance(id, env, present)) && id in s.calls
    requires after == Do(s, Advance(id, env, present)).store
    ensures AllFoundStill(s.store, after)
  {
    SameFinds(s.store);
    assert CallOk(s.store, plan, s.calls[id]);
    if AskedOf(s.calls[id]).Some? {
      var q := AskedOf(s.calls[id]).value;
      AskedStep(s, id, env, present);
      CollaborationGuarantees.AskedIsOk(s.store, plan, s.calls[id], q);
      PageStepFinds(s.store, q.call, q.pc, env);
    } else {
      UnaskedStep(s, id, env, present);
      ReadFinds(s.store, s.calls[id].task.pageId, DraftKind, env.files);
    }
  }

  lemma QuietKeepsStore(s: System, a: Action)
    requires !a.Advance? || a.id !in s.calls
    ensures Do(s, a).store == s.store
  {
  }

  lemma ActionFinds(s: System, plan: Plan, a: Action, after: State)
    requires SystemInv(s, plan) && Allowed(s, plan, a) && after == Do(s, a).store
    ensures AllFoundStill(s.store, after)
  {
    if a.Advance? && a.id in s.calls {
      AdvanceFinds(s, plan, a.id, a.env, a.present, after);
    } else {
      QuietKeepsStore(s, a);
      SameFinds(s.store);
    }
  }

  /** The step of a request in which its revision write lands. */
  ghost predicate LandsIn(st: State, q: Asked, env: Env, after: State, write: Write) {
    && PlannedAt(q.call, q.pc, env) == Some(write) && write.RevisionWrite? && Lands(st, q.call, q.pc, env)
    && after == PageStep(st, q.call, q.pc, env).store
  }

  lemma LandingStep(s: System, plan: Plan, a: Action, after: State, write: Write) returns (q: Asked, env: Env)
    requires SystemInv(s, plan) && Allowed(s, plan, a) && after == Do(s, a).store && Landing(s, a) == Some(write)
    ensures LandsIn(s.store, q, env, after, write) && PageCallOk(s.store, q.call, q.pc) && FreshId(s.store, env.revisionId)
  {
    q, env := AskedOf(s.calls[a.id]).value, a.env;
    assert CallOk(s.store, plan, s.calls[a.id]);
    AskedStep(s, a.id, a.env, a.present);
    CollaborationGuarantees.AskedIsOk(s.store, plan, s.calls[a.id], q);
  }

  lemma LandsInIsTrue(st: State, q: Asked, env: Env, after: State, write: Write)
    requires LandsIn(st, q, env, after, write) && PageCallOk(st, q.call, q.pc) && FreshId(st, env.revisionId)
    ensures LandedTrue(st, after, write) && FreshId(st, write.revision.id)
  {
    StepsOnlyWrite(st, q.call, q.pc, env);
    LandingFinds(st, q.call, q.pc, env, write);
    LandsIffSameDraft(st, q.call, q.pc, env, write);
    PlannedEntry(q.call, q.pc, env, write);
  }

  lemma LandingIsTrue(s: System, plan: Plan, a: Action, after: State, write: Write)
    requires SystemInv(s, plan) && Allowed(s, plan, a) && after == Do(s, a).store && Landing(s, a) == Some(write)
    ensures LandedTrue(s.store, after, write) && FreshId(s.store, write.revision.id)
  {
    var q, env := LandingStep(s, plan, a, after, write);
    LandsInIsTrue(s.store, q, env, after, write);
  }

  lemma EntryStaysTrue(st: State, after: State, carried: map<string, string>, more: map<string, string>, p: string, e: Entry)
    requires EntryTrue(st, carried, p, e) && AllFoundStill(st, after)
    requires CarriedBy(more)(e.revisionId) == CarriedBy(carried)(e.revisionId)
    ensures EntryTrue(after, more, p, e)
  {
    assert FoundStill(RevisionsOf(st, p), RevisionsOf(after, p));
    assert StillFound(RevisionsOf(st, p), RevisionsOf(after, p), e.revisionId);
  }

  /** The patch ids remembered are the same, but for those of revisions yet unknown. */
  ghost predicate CarriedGrew(st: State, carried: map<string, string>, more: map<string, string>) {
    forall id :: (exists p :: RevisionIndex(RevisionsOf(st, p), id) < |RevisionsOf(st, p)|) ==>
      CarriedBy(more)(id) == CarriedBy(carried)(id)
  }

  lemma TruthStays(l: Replaying, m: Replaying)
    requires WindowsTrue(l) && DueTrue(l) && AllFoundStill(l.system.store, m.system.store)
    requires CarriedGrew(l.system.store, l.carried, m.carried) && m.windows == l.windows
    ensures WindowsTrue(m)
    ensures forall i :: 0 <= i < |l.due| ==> EntryTrue(m.system.store, m.carried, l.due[i].pageId, l.due[i])
  {
    forall p, k | p in m.windows && 0 <= k < |m.windows[p]|
      ensures EntryTrue(m.system.store, m.carried, p, m.windows[p][k])
    {
      EntryStaysTrue(l.system.store, m.system.store, l.carried, m.carried, p, l.windows[p][k]);
    }
    forall i | 0 <= i < |l.due| ensures EntryTrue(m.system.store, m.carried, l.due[i].pageId, l.due[i]) {
      EntryStaysTrue(l.system.store, m.system.store, l.carried, m.carried, l.due[i].pageId, l.due[i]);
    }
  }

  lemma NewlyCarried(st: State, carried: map<string, string>, r: string, patchId: string)
    requires FreshId(st, r)
    ensures CarriedGrew(st, carried, carried[r := patchId])
  {
    forall p {
      FreshIsNotFound(st, p, r);
    }
  }

  lemma ActLeaves(l: Replaying, a: Action, m: Replaying)
    requires m == ReplayDo(l, Act(a))
    ensures m.system == Do(l.system, a) && m.windows == l.windows && m.gone == l.gone
    ensures match Landing(l.system, a)
            case None => m.due == l.due && m.carried == l.carried
            case Some(write) =>
              && write.RevisionWrite? && m.due == l.due + [write.entry]
              && m.carried == l.carried[write.entry.revisionId := write.entry.patchId]
  {
  }

  lemma ActKeepsTruth(l: Replaying, plan: Plan, a: Action, m: Replaying)
    requires ReplayInv(l, plan) && Allowed(l.system, plan, a) && m == ReplayDo(l, Act(a))
    ensures WindowsTrue(m) && DueTrue(m)
  {
    ActLeaves(l, a, m);
    ActionFinds(l.system, plan, a, m.system.store);
    if Landing(l.system, a).Some? {
      LandingIsTrue(l.system, plan, a, m.system.store, Landing(l.system, a).value);
      LandingKeepsTruth(l, m, Landing(l.system, a).value);
    } else {
      TruthStays(l, m);
    }
  }

  lemma LandingKeepsTruth(l: Replaying, m: Replaying, write: Write)
    requires WindowsTrue(l) && DueTrue(l) && AllFoundStill(l.system.store, m.system.store) && m.windows == l.windows
    requires LandedTrue(l.system.store, m.system.store, write) && FreshId(l.system.store, write.revision.id)
    requires m.due == l.due + [write.entry] && m.carried == l.carried[write.entry.revisionId := write.entry.patchId]
    ensures WindowsTrue(m) && DueTrue(m)
  {
    NewlyCarried(l.system.store, l.carried, write.revision.id, write.entry.patchId);
    TruthStays(l, m);
    DueIsTrue(l.system.store, m.system.store, m.carried, write);
  }

  lemma DueIsTrue(st: State, after: State, carried: map<string, string>, write: Write)
    requires LandedTrue(st, after, write)
    requires write.revision.id in carried && carried[write.revision.id] == write.entry.patchId
    ensures EntryTrue(after, carried, write.entry.pageId, write.entry)
  {
  }

  /** An append keeps entries and adds one that was due. */
  lemma {:induction false} KeptFrom(entries: seq<Entry>, n: nat, cutoff: int, e: Entry)
    requires n <= |entries| && e in KeepFirst(entries, n, cutoff)
    ensures e in entries
    decreases n
  {
    if e in KeepFirst(entries, n - 1, cutoff) {
      KeptFrom(entries, n - 1, cutoff, e);
    }
  }

  lemma AppendedFrom(entries: seq<Entry>, e: Entry, limit: nat, clock: int, x: Entry)
    requires x in Appended(entries, e, WINDOW_TTL, limit, clock)
    ensures x in entries || x == Stamped(e, clock)
  {
    var all := entries + [Stamped(e, clock)];
    KeptFrom(all, |all|, clock - WINDOW_TTL, x);
  }

  lemma AppendKeepsTruth(l: Replaying, i: nat, clock: int)
    requires WindowsTrue(l) && DueTrue(l) && i < |l.due|
    ensures WindowsTrue(Appending(l, i, clock)) && DueTrue(Appending(l, i, clock))
  {
    var e, m := l.due[i], Appending(l, i, clock);
    forall p, k | p in m.windows && 0 <= k < |m.windows[p]|
      ensures EntryTrue(m.system.store, m.carried, p, m.windows[p][k])
    {
      if p == e.pageId {
        AppendedFrom(EntriesOf(l.windows, p), e, l.limit, clock, m.windows[p][k]);
      }
    }
    forall j | 0 <= j < |m.due| ensures EntryTrue(m.system.store, m.carried, m.due[j].pageId, m.due[j]) {
      assert m.due[j] == l.due[if j < i then j else j + 1];
    }
  }

  ghost predicate ReplayAllowed(l: Replaying, plan: Plan, a: ReplayAction) {
    a.Act? ==> Allowed(l.system, plan, a.action)
  }

  lemma LoseKeepsTruth(l: Replaying, i: nat, m: Replaying)
    requires DueTrue(l) && i < |l.due| && m == Losing(l, i)
    ensures DueTrue(m)
  {
    forall j | 0 <= j < |m.due| ensures EntryTrue(m.system.store, m.carried, m.due[j].pageId, m.due[j]) {
      assert m.due[j] == l.due[if j < i then j else j + 1];
    }
  }

  // ----------------------------------------------------------------- every revision accounted

  /** What may be new on page p is a first revision, or that of the write that landed. */
  ghost predicate Gains(st: State, after: State, landed: Option<Write>, p: string, no: int, id: string) {
    && AllOnlyNew(st, after, p, no, id)
    && (no == 1 || (landed.Some? && landed.value.RevisionWrite? && landed.value.entry.pageId == p
                    && landed.value.entry.revisionId == id))
  }

  lemma LandingGains(st: State, call: PageCall, pc: PagePc, env: Env, write: Write) returns (p: string, no: int, id: string)
    requires PageCallOk(st, call, pc) && Lands(st, call, pc, env) && PlannedAt(call, pc, env) == Some(write)
    ensures Gains(st, Locked(st, write).value, if write.RevisionWrite? then Some(write) else None, p, no, id)
  {
    p, no, id := PageIdOf(call), 1, "";
    LockedRevisions(st, write);
    if write.RevisionWrite? {
      LandsIffSameDraft(st, call, pc, env, write);
      PlannedEntry(call, pc, env, write);
      no, id := write.revision.no, write.revision.id;
      WriteIsOnlyNew(st, Locked(st, write).value, p, write.revision);
    } else {
      UnchangedIsOnlyNew(st, Locked(st, write).value, p, no, id);
    }
  }

  lemma PageStepGains(st: State, call: PageCall, pc: PagePc, env: Env) returns (p: string, no: int, id: string)
    requires PageCallOk(st, call, pc)
    ensures Gains(st, PageStep(st, call, pc, env).store, LandedIn(st, call, pc, env), p, no, id)
  {
    p, no, id := PageIdOf(call), 1, "";
    var after := PageStep(st, call, pc, env).store;
    match call
    case CreateCall(input) =>
      CreateIsOnlyNew(st, input, env, after);
      id := env.revisionId;
    case LoadCall(_, view) => ReadIsOnlyNew(st, p, view, env.files, after);
    case _ =>
      StepsOnlyWrite(st, call, pc, env);
      if Lands(st, call, pc, env) {
        p, no, id := LandingGains(st, call, pc, env, PlannedAt(call, pc, env).value);
      } else {
        UnchangedIsOnlyNew(st, after, p, no, id);
      }
  }

  lemma LandingOfAsked(s: System, id: nat, env: Env, present: bool, q: Asked)
    requires id in s.calls && AskedOf(s.calls[id]) == Some(q)
    ensures Landing(s, Advance(id, env, present)) == LandedIn(s.store, q.call, q.pc, env)
  {
  }

  lemma AdvanceGains(s: System, plan: Plan, call: nat, env: Env, present: bool) returns (p: string, no: int, id: string)
    requires SystemInv(s, plan) && call in s.calls
    ensures Gains(s.store, Do(s, Advance(call, env, present)).store, Landing(s, Advance(call, env, present)), p, no, id)
  {
    assert CallOk(s.store, plan, s.calls[call]);
    if AskedOf(s.calls[call]).Some? {
      var q := AskedOf(s.calls[call]).value;
      AskedStep(s, call, env, present);
      LandingOfAsked(s, call, env, present, q);
      CollaborationGuarantees.AskedIsOk(s.store, plan, s.calls[call], q);
      p, no, id := PageStepGains(s.store, q.call, q.pc, env);
    } else {
      p, no, id := s.calls[call].task.pageId, 1, "";
      var after := Do(s, Advance(call, env, present)).store;
      UnaskedStep(s, call, env, present);
      if after == s.store {
        UnchangedIsOnlyNew(s.store, after, p, no, id);
      } else {
        ReadIsOnlyNew(s.store, p, DraftKind, env.files, after);
      }
    }
  }

  lemma ActionGains(s: System, plan: Plan, a: Action) returns (p: string, no: int, id: string)
    requires SystemInv(s, plan)
    ensures Gains(s.store, Do(s, a).store, Landing(s, a), p, no, id)
  {
    if a.Advance? && a.id in s.calls {
      p, no, id := AdvanceGains(s, plan, a.id, a.env, a.present);
    } else {
      QuietKeepsStore(s, a);
      p, no, id := "", 1, "";
      UnchangedIsOnlyNew(s.store, Do(s, a).store, p, no, id);
    }
  }

  lemma ActKeepsAccounted(l: Replaying, plan: Plan, a: Action, m: Replaying)
    requires ReplayInv(l, plan) && m == ReplayDo(l, Act(a))
    ensures AllAccounted(m)
  {
    ActLeaves(l, a, m);
    var p, no, id := ActionGains(l.system, plan, a);
    GainsKeepAccounted(l, m, Landing(l.system, a), p, no, id);
  }

  lemma GainsKeepAccounted(l: Replaying, m: Replaying, landed: Option<Write>, p: string, no: int, id: string)
    requires AllAccounted(l) && Gains(l.system.store, m.system.store, landed, p, no, id)
    requires m.windows == l.windows && m.gone == l.gone
    requires landed.Some? && landed.value.RevisionWrite? ==> m.due == l.due + [landed.value.entry]
    requires landed.None? ==> m.due == l.due
    requires landed.Some? ==> landed.value.RevisionWrite?
    ensures AllAccounted(m)
  {
    forall q, j | 0 <= j < |RevisionsOf(m.system.store, q)|
      ensures Accounted(m, q, RevisionsOf(m.system.store, q)[j].no, RevisionsOf(m.system.store, q)[j].id)
    {
      var r := RevisionsOf(m.system.store, q)[j];
      if Stored(RevisionsOf(l.system.store, q), r.no, r.id) {
        var i :| 0 <= i < |RevisionsOf(l.system.store, q)| && RevisionsOf(l.system.store, q)[i].no == r.no
          && RevisionsOf(l.system.store, q)[i].id == r.id;
        assert Accounted(l, q, r.no, r.id);
        AccountedStays(l, m, q, r.no, r.id);
      } else if r.no != 1 {
        assert q == p && OnlyNew(RevisionsOf(l.system.store, q), RevisionsOf(m.system.store, q), no, id);
        assert m.due[|l.due|] == landed.value.entry;
      }
    }
  }

  lemma AccountedStays(l: Replaying, m: Replaying, p: string, no: int, id: string)
    requires Accounted(l, p, no, id) && m.windows == l.windows && m.gone == l.gone && l.due <= m.due
    ensures Accounted(m, p, no, id)
  {
    if HasDue(l.due, p, id) {
      var k :| 0 <= k < |l.due| && l.due[k].pageId == p && l.due[k].revisionId == id;
      assert m.due[k] == l.due[k];
    }
  }

  lemma RemovedDue(due: seq<Entry>, i: nat, p: string, id: string)
    requires i < |due| && HasDue(due, p, id)
    ensures HasDue(RemoveAt(due, i), p, id) || (due[i].pageId == p && due[i].revisionId == id)
  {
    var k :| 0 <= k < |due| && due[k].pageId == p && due[k].revisionId == id;
    if k != i {
      assert RemoveAt(due, i)[if k < i then k else k - 1] == due[k];
    }
  }

  lemma NamedOrDropped(entries: seq<Entry>, kept: seq<Entry>, id: string)
    requires Names(entries, id)
    ensures Names(kept, id) || id in Dropped(entries, kept)
  {
  }

  lemma AppendAccounts(l: Replaying, i: nat, clock: int, p: string, no: int, id: string)
    requires i < |l.due| && Accounted(l, p, no, id)
    ensures Accounted(Appending(l, i, clock), p, no, id)
  {
    var m, e, before := Appending(l, i, clock), l.due[i], EntriesOf(l.windows, l.due[i].pageId);
    assert (before + [e])[|before|] == e;
    if p == e.pageId && (Names(before, id) || id == e.revisionId) {
      if Names(before, id) {
        var k :| 0 <= k < |before| && before[k].revisionId == id;
        assert (before + [e])[k] == before[k];
      }
      NamedOrDropped(before + [e], EntriesOf(m.windows, p), id);
    } else if HasDue(l.due, p, id) {
      RemovedDue(l.due, i, p, id);
    }
  }

  lemma LosingAccounts(l: Replaying, i: nat, p: string, no: int, id: string)
    requires i < |l.due| && Accounted(l, p, no, id)
    ensures Accounted(Losing(l, i), p, no, id)
  {
    if HasDue(l.due, p, id) {
      RemovedDue(l.due, i, p, id);
    }
  }

  lemma AppendsKeepAccounted(l: Replaying, i: nat, clock: int)
    requires AllAccounted(l) && i < |l.due|
    ensures AllAccounted(Appending(l, i, clock)) && AllAccounted(Losing(l, i))
  {
    forall p, j | 0 <= j < |RevisionsOf(l.system.store, p)|
      ensures var r := RevisionsOf(l.system.store, p)[j];
              Accounted(Appending(l, i, clock), p, r.no, r.id) && Accounted(Losing(l, i), p, r.no, r.id)
    {
      var r := RevisionsOf(l.system.store, p)[j];
      AppendAccounts(l, i, clock, p, r.no, r.id);
      LosingAccounts(l, i, p, r.no, r.id);
    }
  }

  lemma ActKeepsReplayInv(l: Replaying, plan: Plan, a: Action, m: Replaying)
    requires ReplayInv(l, plan) && Allowed(l.system, plan, a) && m == ReplayDo(l, Act(a))
    ensures ReplayInv(m, plan)
  {
    ActLeaves(l, a, m);
    ActionKeepsInv(l.system, plan, a);
    ActKeepsTruth(l, plan, a, m);
    ActKeepsAccounted(l, plan, a, m);
  }

  /** Every action of any call, and every append or loss, leaves true windows. */
  lemma ReplayKeepsInv(l: Replaying, plan: Plan, a: ReplayAction)
    requires ReplayInv(l, plan) && ReplayAllowed(l, plan, a)
    ensures ReplayInv(ReplayDo(l, a), plan)
  {
    match a
    case Act(action) => ActKeepsReplayInv(l, plan, action, ReplayDo(l, a));
    case Append(i, clock) =>
      if i < |l.due| {
        AppendKeepsTruth(l, i, clock);
        AppendsKeepAccounted(l, i, clock);
      }
    case Lose(i) =>
      if i < |l.due| {
        LoseKeepsTruth(l, i, ReplayDo(l, a));
        AppendsKeepAccounted(l, i, 0);
      }
  }

  // ---------------------------------------------------------------------------------- runs

  function Idle(limit: nat): Replaying {
    Replaying(CollaborationGuarantees.IDLE, map[], [], map[], {}, limit)
  }

  /** The state after these actions. */
  function Ran(limit: nat, actions: seq<ReplayAction>): Replaying {
    if actions == [] then Idle(limit) else ReplayDo(Ran(limit, actions[..|actions| - 1]), actions[|actions| - 1])
  }

  ghost predicate RanLegally(limit: nat, plan: Plan, actions: seq<ReplayAction>) {
    actions != [] ==>
      && RanLegally(limit, plan, actions[..|actions| - 1])
      && ReplayAllowed(Ran(limit, actions[..|actions| - 1]), plan, actions[|actions| - 1])
  }

  ghost predicate Reachable(limit: nat, plan: Plan, l: Replaying) {
    exists actions :: RanLegally(limit, plan, actions) && Ran(limit, actions) == l
  }

  lemma {:induction false} RunsKeepReplayInv(limit: nat, plan: Plan, actions: seq<ReplayAction>)
    requires RanLegally(limit, plan, actions)
    ensures ReplayInv(Ran(limit, actions), plan)
    decreases |actions|
  {
    if actions == [] {
      CollaborationGuarantees.IdleInv(plan);
    } else {
      RunsKeepReplayInv(limit, plan, actions[..|actions| - 1]);
      ReplayKeepsInv(Ran(limit, actions[..|actions| - 1]), plan, actions[|actions| - 1]);
    }
  }

  /** In every reachable state, whatever is in flight, the entries of all windows are true. */
  lemma ReachableInv(limit: nat, plan: Plan, l: Replaying)
    requires Reachable(limit, plan, l)
    ensures ReplayInv(l, plan)
  {
    var actions :| RanLegally(limit, plan, actions) && Ran(limit, actions) == l;
    RunsKeepReplayInv(limit, plan, actions);
  }

  lemma ReachableNext(limit: nat, plan: Plan, l: Replaying, a: ReplayAction)
    requires Reachable(limit, plan, l) && ReplayAllowed(l, plan, a)
    ensures Reachable(limit, plan, ReplayDo(l, a))
  {
    var actions :| RanLegally(limit, plan, actions) && Ran(limit, actions) == l;
    var more := actions + [a];
    assert more[..|more| - 1] == actions;
    assert RanLegally(limit, plan, more) && Ran(limit, more) == ReplayDo(l, a);
  }

  function WorldOf(l: Replaying): World {
    World(l.system.store, l.windows, l.limit)
  }

  lemma TruthOfPage(l: Replaying, plan: Plan, p: string)
    requires ReplayInv(l, plan) && p in l.system.store.pages
    ensures var revs := RevisionsOf(l.system.store, p);
            UniqueFirst(revs, |revs|) && TellsTruth(EntriesOf(l.windows, p), revs, CarriedBy(l.carried))
  {
    assert PageInv(l.system.store, p);
    forall k | 0 <= k < |EntriesOf(l.windows, p)|
      ensures Tells(EntriesOf(l.windows, p)[k], RevisionsOf(l.system.store, p), CarriedBy(l.carried))
    {
      assert EntryTrue(l.system.store, l.carried, p, l.windows[p][k]);
    }
  }

  /** No unseen revision's entry is due, was lost with its request, or was dropped by limit or cutoff. */
  ghost predicate NoneMissing(l: Replaying, p: string, from: int) {
    forall j :: 0 <= j < |RevisionsOf(l.system.store, p)| && RevisionsOf(l.system.store, p)[j].no > from ==>
      var id := RevisionsOf(l.system.store, p)[j].id;
      !HasDue(l.due, p, id) && id !in l.gone
  }

  lemma NoneMissingCovers(l: Replaying, p: string, from: int)
    requires AllAccounted(l) && from >= 1 && NoneMissing(l, p, from)
    ensures Covers(EntriesOf(l.windows, p), RevisionsOf(l.system.store, p), from)
  {
    var revs := RevisionsOf(l.system.store, p);
    forall j | 0 <= j < |revs| && revs[j].no > from ensures HasEntry(EntriesOf(l.windows, p), revs[j]) {
      assert Accounted(l, p, revs[j].no, revs[j].id);
    }
  }

  /**
   In every reachable state of the interleaved system, with appends late, out of order or
   lost: a client may resume rightly exactly when the revisions it has not seen and that have
   no entry are its own pending patches; so it does when each of them has its entry, and that
   is when none of their entries is due, lost or dropped.
   */
  lemma InterleavedResumeIsSound(limit: nat, plan: Plan, l: Replaying, input: SyncInput)
    requires Reachable(limit, plan, l) && Resumes(WorldOf(l), input)
    requires HeadRevision(l.system.store, input.pageId, DraftKind).value.no != input.lastKnown
    ensures var revs, window := RevisionsOf(l.system.store, input.pageId), EntriesOf(l.windows, input.pageId);
            var carried := CarriedBy(l.carried);
            && (AllPending(revs, carried, input.lastKnown, input.pending)
                <==> UncoveredPending(window, revs, carried, input.lastKnown, input.pending))
            && (Covers(window, revs, input.lastKnown) ==> AllPending(revs, carried, input.lastKnown, input.pending))
            && (input.lastKnown >= 1 && NoneMissing(l, input.pageId, input.lastKnown) ==> Covers(window, revs, input.lastKnown))
  {
    ReachableInv(limit, plan, l);
    TruthOfPage(l, plan, input.pageId);
    ResumeIsSound(WorldOf(l), CarriedBy(l.carried), input);
    if input.lastKnown >= 1 && NoneMissing(l, input.pageId, input.lastKnown) {
      NoneMissingCovers(l, input.pageId, input.lastKnown);
    }
  }
}
