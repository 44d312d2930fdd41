/**
 The two forms of the page service agree. In one, a request is a sequence of steps between
 which any number of steps of other requests may run; in the other, it is a single function
 on the store. A request whose steps run without anything in between does what the function
 of its use case does, in the answer it gives as in the store it leaves behind.
 */
module Uninterrupted {
  import opened Wrappers
  import opened Text
  import opened Documents
  import opened PageStore
  import opened UseCases
  import opened PageCalls

  /** The progress of a request after n steps of its own. */
  function Alone(st: State, call: PageCall, env: Env, n: nat): Progress
    decreases n, 0
  {
    if n == 0 then Going(FirstPc(call), st) else AloneNext(st, call, env, n - 1)
  }

  function AloneNext(st: State, call: PageCall, env: Env, n: nat): Progress
    decreases n, 1
  {
    match Alone(st, call, env, n)
    case Going(pc, now) => PageStep(now, call, pc, env)
    case Ended(response, now) => Ended(response, now)
  }

  lemma AloneStep(st: State, call: PageCall, env: Env, n: nat, o: Progress)
    requires Alone(st, call, env, n) == o
    ensures Alone(st, call, env, n + 1) == (match o
                                            case Going(pc, now) => PageStep(now, call, pc, env)
                                            case Ended(_, _) => o)
  {
    assert Alone(st, call, env, n + 1) == AloneNext(st, call, env, n);
  }

  /** The outcome of the atomic form, as a progress. */
  function EndOf(o: Outcome): Progress {
    Ended(o.response, o.world.store)
  }

  /** Every page is stored under its own id. */
  ghost predicate OwnIds(st: State) {
    forall p :: p in st.pages ==> st.pages[p].id == p
  }

  /** The save comes as far as planning its write. */
  predicate PlansSave(st: State, input: SaveInput) {
    var p := input.pageId;
    && TrimSpace(p) != "" && input.base > 0 && Recorded(st, p, input.key).None?
    && p in st.pages && st.pages[p].status != ArchivedStatus && st.pages[p].draftNo == input.base
    && HeadRevision(st, p, DraftKind).Some?
  }

  lemma SaveRefusedAlone(w: World, input: SaveInput, env: Env)
    requires !PlansSave(w.store, input)
    ensures Alone(w.store, SaveCall(input), env, 4) == EndOf(Save(w, input, env))
  {
  }

  lemma SavePlannedAlone(w: World, input: SaveInput, env: Env, planned: Result<Write, UseCaseError>)
    requires PlansSave(w.store, input)
    requires planned == PlanSave(input, w.store.pages[input.pageId], HeadRevision(w.store, input.pageId, DraftKind).value.id, env)
    ensures Alone(w.store, SaveCall(input), env, 4) == SaveWriteStep(w.store, input, w.store.pages[input.pageId], planned)
            || SaveWriteStep(w.store, input, w.store.pages[input.pageId], planned).Going?
  {
  }

  /** A planned write passes the guard it was planned for. */
  lemma SaveConcludes(w: World, input: SaveInput, env: Env, planned: Result<Write, UseCaseError>)
    requires OwnIds(w.store) && PlansSave(w.store, input)
    requires planned == PlanSave(input, w.store.pages[input.pageId], HeadRevision(w.store, input.pageId, DraftKind).value.id, env)
    ensures SaveWriteStep(w.store, input, w.store.pages[input.pageId], planned) == EndOf(Save(w, input, env))
  {
  }

  /** A save or a commit run alone. */
  lemma SaveAloneIsSave(w: World, input: SaveInput, env: Env, o: Outcome)
    requires OwnIds(w.store) && o == Save(w, input, env)
    ensures Alone(w.store, SaveCall(input), env, 4) == EndOf(o)
  {
    if PlansSave(w.store, input) {
      var planned := PlanSave(input, w.store.pages[input.pageId], HeadRevision(w.store, input.pageId, DraftKind).value.id, env);
      SavePlannedAlone(w, input, env, planned);
      SaveConcludes(w, input, env, planned);
    } else {
      SaveRefusedAlone(w, input, env);
    }
  }

  /** Likewise publishing. */
  predicate PlansPublish(st: State, p: string, base: int) {
    && p in st.pages && st.pages[p].status != ArchivedStatus && st.pages[p].draftNo == base
    && HeadRevision(st, p, DraftKind).Some?
  }

  lemma PublishRefusedAlone(w: World, p: string, ws: string, actor: string, base: int, env: Env)
    requires !PlansPublish(w.store, p, base)
    ensures Alone(w.store, PublishCall(p, ws, actor, base), env, 3) == EndOf(Publish(w, p, ws, actor, base, env))
  {
  }

  lemma PublishPlannedAlone(st: State, p: string, ws: string, actor: string, base: int, env: Env, write: Write)
    requires PlansPublish(st, p, base)
    requires write == PlanPublish(p, ws, actor, base, st.pages[p], HeadRevision(st, p, DraftKind).value, env)
    ensures Alone(st, PublishCall(p, ws, actor, base), env, 3) == PublishWriteStep(st, p, write)
  {
  }

  lemma PublishConcludes(w: World, p: string, ws: string, actor: string, base: int, env: Env, write: Write)
    requires OwnIds(w.store) && PlansPublish(w.store, p, base)
    requires write == PlanPublish(p, ws, actor, base, w.store.pages[p], HeadRevision(w.store, p, DraftKind).value, env)
    ensures PublishWriteStep(w.store, p, write) == EndOf(Publish(w, p, ws, actor, base, env))
  {
  }

  /** Publishing run alone. */
  lemma PublishAloneIsPublish(w: World, p: string, ws: string, actor: string, base: int, env: Env, o: Outcome)
    requires OwnIds(w.store) && o == Publish(w, p, ws, actor, base, env)
    ensures Alone(w.store, PublishCall(p, ws, actor, base), env, 3) == EndOf(o)
  {
    if PlansPublish(w.store, p, base) {
      var write := PlanPublish(p, ws, actor, base, w.store.pages[p], HeadRevision(w.store, p, DraftKind).value, env);
      PublishPlannedAlone(w.store, p, ws, actor, base, env, write);
      PublishConcludes(w, p, ws, actor, base, env, write);
    } else {
      PublishRefusedAlone(w, p, ws, actor, base, env);
    }
  }

  /** Restoring run alone. */
  lemma RestoreAloneIsRestore(w: World, p: string, ws: string, actor: string, revisionId: string, env: Env, o: Outcome)
    requires OwnIds(w.store) && o == Restore(w, p, ws, actor, revisionId, env)
    ensures Alone(w.store, RestoreCall(p, ws, actor, revisionId), env, 3) == EndOf(o)
  {
  }

  /** Archiving run alone. */
  lemma ArchiveAloneIsArchive(w: World, p: string, actor: string, base: int, env: Env, o: Outcome)
    requires OwnIds(w.store) && o == Archive(w, p, actor, base, env)
    ensures Alone(w.store, ArchiveCall(p, actor, base), env, 2) == EndOf(o)
  {
  }
}
