/**
 The collaboration service on top of the page service, as one system of interleaved steps: a
 room per workspace and page caches the draft head; submits hold the room's lock while joins,
 refreshes, expiry and page requests run freely; any call may die between two steps.
 */
module Collaboration {
  import opened Wrappers
  import opened Text
  import opened Documents
  import opened Patches
  import opened PageStore
  import opened UseCases
  import opened Lifecycle
  import opened DraftChain
  import opened PageCalls
  import opened PageInterleaving

  // -------------------------------------------------------------------------------- rooms

  /** `RoomKey`. */
  function RoomKey(workspaceId: string, pageId: string): string {
    workspaceId + "::" + pageId
  }

  /** Rooms of different pages never share a key when page ids contain no ':'. */
  lemma RoomKeysAreInjective(ws: string, p: string, vs: string, q: string)
    requires ':' !in p && ':' !in q && RoomKey(ws, p) == RoomKey(vs, q)
    ensures ws == vs && p == q
  {
    var k, l := RoomKey(ws, p), RoomKey(vs, q);
    var n := |k|;
    assert k[n - |p| - 1] == ':' && l[n - |q| - 1] == ':';
    assert forall i :: n - |p| <= i < n ==> k[i] == p[i - (n - |p|)];
    assert forall i :: n - |q| <= i < n ==> l[i] == q[i - (n - |q|)];
    assert |p| == |q|;
    assert p == k[n - |p|..] && q == l[n - |q|..];
    assert ws == k[..n - |p| - 2] && vs == l[..n - |q| - 2];
  }

  datatype Room = Room(pageId: string, head: Head)

  // -------------------------------------------------------------------------------- calls

  datatype RoomTask =
    | Submit(pageId: string, workspaceId: string, actor: string, base: int, patchId: string, ops: seq<Op>)
    | Join(pageId: string, workspaceId: string, lastKnown: int)
    | Refresh(pageId: string, workspaceId: string)

  /** Where a call to the collaboration service is, with the local copies it holds. */
  datatype RoomPc =
    | AtRoom
    | AtHead
    | AtStore(head: Head)
    | InHand(head: Head)
    | Committing(room: Head, next: Document, pc: PagePc)
    | Orphaned(room: Head, next: Document, pc: PagePc)
    | Committed(next: Document, no: int, id: string)
    | Aborted
    | AbortedWith(head: Head)

  datatype Call = PageRequest(call: PageCall, pc: PagePc) | RoomRequest(task: RoomTask, at: RoomPc)

  /** What clients are sent. */
  datatype Message =
    | SessionJoined(pageId: string, head: Head)
    | RebaseNeeded(pageId: string, base: int, head: Head)
    | PatchAccepted(pageId: string, base: int, patchId: string, ops: seq<Op>, no: int, id: string)
    | PatchRejected(pageId: string, patchId: string)

  datatype System = System(
    store: State, rooms: map<string, Room>, held: set<string>, calls: map<nat, Call>, sent: seq<Message>)

  datatype Action =
    | BeginPage(id: nat, call: PageCall)
    | BeginRoom(id: nat, task: RoomTask)
    | Advance(id: nat, env: Env, present: bool)
    | Crash(id: nat)
    | Expire(key: string)

  function KeyOf(task: RoomTask): string {
    RoomKey(task.workspaceId, task.pageId)
  }

  function CommitOf(task: RoomTask, next: Document): SaveInput
    requires task.Submit?
  {
    CommitInput(task.pageId, task.workspaceId, task.actor, task.base, task.patchId, next)
  }

  // -------------------------------------------------------------------------------- steps

  /** The state after a call's step: its new place, or none when the call is over. */
  function Moved(s: System, id: nat, task: RoomTask, at: RoomPc): System {
    s.(calls := s.calls[id := RoomRequest(task, at)])
  }

  /** A finished call is forgotten; a submit gives its lock back. */
  function Finished(s: System, id: nat, task: RoomTask): System {
    s.(calls := s.calls - {id}, held := if task.Submit? then s.held - {KeyOf(task)} else s.held)
  }

  function Told(s: System, m: Message): System {
    s.(sent := s.sent + [m])
  }

  function Saved(s: System, task: RoomTask, head: Head): System {
    s.(rooms := s.rooms[KeyOf(task) := Room(task.pageId, head)])
  }

  /** Reading the room; a submit first waits for the room's lock. */
  function RoomStep(s: System, id: nat, task: RoomTask): System {
    var k := KeyOf(task);
    if task.Submit? && k in s.held then s
    else
      var t := if task.Submit? then s.(held := s.held + {k}) else s;
      match task
      case Refresh(_, _) => if k in s.rooms then Moved(t, id, task, AtHead) else Finished(t, id, task)
      case _ => if k in s.rooms then Moved(t, id, task, InHand(s.rooms[k].head)) else Moved(t, id, task, AtHead)
  }

  /** Fetching the draft head from the page service, which answered like this. */
  function HeadStep(s: System, id: nat, task: RoomTask, aborted: bool, o: Outcome): System {
    var t := s.(store := o.world.store);
    match o.response
    case HeadIs(head) => Moved(t, id, task, if aborted then AbortedWith(head) else AtStore(head))
    case _ => Finished(t, id, task)
  }

  /** With the room in hand: answer a join, or check and apply a patch. */
  function HandStep(s: System, id: nat, task: RoomTask, head: Head, present: bool): System {
    match task
    case Join(p, _, lastKnown) =>
      Finished(Told(s, if 0 < lastKnown < head.no then RebaseNeeded(p, lastKnown, head) else SessionJoined(p, head)), id, task)
    case Submit(p, _, _, base, patchId, ops) =>
      if !present then Finished(Told(s, PatchRejected(p, patchId)), id, task)
      else if head.no != base then Finished(Told(s, RebaseNeeded(p, base, head)), id, task)
      else
        (match ApplyPatch(head.document, ops)
         case Err(_) => Finished(Told(s, PatchRejected(p, patchId)), id, task)
         case Ok(next) => Moved(s, id, task, Committing(head, next, AtKey)))
    case Refresh(_, _) => Finished(s, id, task)
  }

  /** One step of the commit at the page service; an orphaned commit has nobody to answer. */
  function CommitStep(s: System, id: nat, task: RoomTask, at: RoomPc, o: Progress): System
    requires task.Submit? && (at.Committing? || at.Orphaned?)
  {
    match o
    case Going(pc, st) => Moved(s.(store := st), id, task, at.(pc := pc))
    case Ended(response, st) =>
      var t := s.(store := st);
      if at.Orphaned? then t.(calls := t.calls - {id})
      else
        match response
        case Accepted(_, revisionId, no) => Moved(t, id, task, Committed(at.next, no, revisionId))
        case Refused(e) => if e.RebaseRequired? then Moved(t, id, task, Aborted) else Finished(t, id, task)
        case _ => Finished(t, id, task)
  }

  /** The last step of an accepted submit: the room is saved, the patch is broadcast. */
  function AcceptStep(s: System, id: nat, task: RoomTask, next: Document, no: int, revisionId: string): System
    requires task.Submit?
  {
    Finished(Told(Saved(s, task, Head(no, revisionId, next)),
                  PatchAccepted(task.pageId, task.base, task.patchId, task.ops, no, revisionId)), id, task)
  }

  function StoreStep(s: System, id: nat, task: RoomTask, head: Head): System {
    if task.Refresh? then Finished(Saved(s, task, head), id, task) else Moved(Saved(s, task, head), id, task, InHand(head))
  }

  function RebaseStep(s: System, id: nat, task: RoomTask, head: Head): System
    requires task.Submit?
  {
    Finished(Told(Saved(s, task, head), RebaseNeeded(task.pageId, task.base, head)), id, task)
  }

  function RoomRequestStep(s: System, id: nat, task: RoomTask, at: RoomPc, env: Env, present: bool): System {
    match at
    case AtRoom => RoomStep(s, id, task)
    case AtHead => HeadStep(s, id, task, false, ReadView(World(s.store, map[], 0), task.pageId, DraftKind, env.files))
    case AtStore(head) => StoreStep(s, id, task, head)
    case InHand(head) => HandStep(s, id, task, head, present)
    case Committing(_, next, pc) =>
      if task.Submit? then CommitStep(s, id, task, at, SaveStep(s.store, CommitOf(task, next), pc, env)) else s
    case Orphaned(_, next, pc) =>
      if task.Submit? then CommitStep(s, id, task, at, SaveStep(s.store, CommitOf(task, next), pc, env)) else s
    case Committed(next, no, revisionId) => if task.Submit? then AcceptStep(s, id, task, next, no, revisionId) else s
    case Aborted => HeadStep(s, id, task, true, ReadView(World(s.store, map[], 0), task.pageId, DraftKind, env.files))
    case AbortedWith(head) => if task.Submit? then RebaseStep(s, id, task, head) else s
  }

  function PageRequestStep(s: System, id: nat, call: PageCall, o: Progress): System {
    match o
    case Going(next, st) => s.(store := st, calls := s.calls[id := PageRequest(call, next)])
    case Ended(_, st) => s.(store := st, calls := s.calls - {id})
  }

  /** A call dies: its lock is given back, but a commit already under way goes on unattended. */
  function Crashed(s: System, id: nat): System
    requires id in s.calls
  {
    match s.calls[id]
    case PageRequest(_, _) => s.(calls := s.calls - {id})
    case RoomRequest(task, at) =>
      if at.Orphaned? then s.(calls := s.calls - {id})
      else if at.AtRoom? then s.(calls := s.calls - {id})
      else if at.Committing? then Moved(Finished(s, id, task), id, task, Orphaned(at.room, at.next, at.pc))
      else Finished(s, id, task)
  }

  function Do(s: System, a: Action): System {
    match a
    case BeginPage(id, call) => if id in s.calls then s else s.(calls := s.calls[id := PageRequest(call, FirstPc(call))])
    case BeginRoom(id, task) => if id in s.calls then s else s.(calls := s.calls[id := RoomRequest(task, AtRoom)])
    case Advance(id, env, present) =>
      if id !in s.calls then s
      else
        (match s.calls[id]
         case PageRequest(call, pc) => PageRequestStep(s, id, call, PageStep(s.store, call, pc, env))
         case RoomRequest(task, at) => RoomRequestStep(s, id, task, at, env, present))
    case Crash(id) => if id in s.calls then Crashed(s, id) else s
    case Expire(key) => s.(rooms := s.rooms - {key})
  }

  /** A request to the page service and where it is. */
  datatype Asked = Asked(call: PageCall, pc: PagePc)

  /** What a call is asking of the page service, reading a head aside. */
  function AskedOf(call: Call): Option<Asked> {
    match call
    case PageRequest(c, pc) => Some(Asked(c, pc))
    case RoomRequest(task, at) =>
      if task.Submit? && (at.Committing? || at.Orphaned?) then Some(Asked(SaveCall(CommitOf(task, at.next)), at.pc)) else None
  }

  // ---------------------------------------------------------------------------- invariant

  ghost predicate OnChain(st: State, p: string, head: Head) {
    p in st.pages && ':' !in p && SnapOfHead(head) in Chain(st, p)
  }

  /** A submit resubmits its patch id with the base and operations the id was made for. */
  ghost predicate TaskOk(plan: Plan, task: RoomTask) {
    && ':' !in task.pageId
    && (task.Submit? && TrimSpace(task.patchId) != "" ==>
          plan(task.pageId, TrimSpace(task.patchId)) == Intent(task.base, task.ops))
  }

  /** A revision number below the draft head: the base of an aborted commit. */
  ghost predicate Overtaken(st: State, p: string, base: int) {
    p in st.pages && base < st.pages[p].draftNo
  }

  ghost predicate CommitCallOk(st: State, plan: Plan, task: RoomTask, room: Head, next: Document, pc: PagePc)
    requires task.Submit?
  {
    && task.pageId in st.pages
    && CommitOk(st, plan, CommitOf(task, next), task.patchId, room, task.ops)
    && PageCallOk(st, SaveCall(CommitOf(task, next)), pc)
  }

  ghost predicate RoomCallOk(st: State, plan: Plan, task: RoomTask, at: RoomPc) {
    match at
    case AtRoom => true
    case AtHead => true
    case AtStore(head) => OnChain(st, task.pageId, head)
    case InHand(head) => OnChain(st, task.pageId, head)
    case Committing(room, next, pc) => task.Submit? && CommitCallOk(st, plan, task, room, next, pc)
    case Orphaned(room, next, pc) => task.Submit? && CommitCallOk(st, plan, task, room, next, pc)
    case Committed(next, no, id) =>
      && task.Submit? && OnChain(st, task.pageId, Head(no, id, next))
      && PatchOnChain(Chain(st, task.pageId), Intent(task.base, task.ops), no, id)
    case Aborted => task.Submit? && Overtaken(st, task.pageId, task.base)
    case AbortedWith(head) => task.Submit? && OnChain(st, task.pageId, head) && task.base < head.no
  }

  ghost predicate CallOk(st: State, plan: Plan, call: Call) {
    match call
    case PageRequest(c, pc) => PageCallOk(st, c, pc)
    case RoomRequest(task, at) => TaskOk(plan, task) && RoomCallOk(st, plan, task, at)
  }

  ghost predicate MessageOk(st: State, plan: Plan, m: Message) {
    match m
    case SessionJoined(p, head) => OnChain(st, p, head)
    case RebaseNeeded(p, base, head) => OnChain(st, p, head) && head.no != base
    case PatchAccepted(p, base, patchId, ops, no, id) =>
      && p in st.pages && PatchOnChain(Chain(st, p), Intent(base, ops), no, id)
      && (TrimSpace(patchId) != "" ==> plan(p, TrimSpace(patchId)) == Intent(base, ops))
    case PatchRejected(_, _) => true
  }

  /** A room caches some draft of its page, under the key of that page. */
  ghost predicate RoomOk(st: State, key: string, room: Room) {
    && OnChain(st, room.pageId, room.head)
    && exists ws :: key == RoomKey(ws, room.pageId)
  }

  ghost predicate SystemInv(s: System, plan: Plan) {
    && StoreInv(s.store, plan)
    && (forall key :: key in s.rooms ==> RoomOk(s.store, key, s.rooms[key]))
    && (forall id :: id in s.calls ==> CallOk(s.store, plan, s.calls[id]))
    && (forall i :: 0 <= i < |s.sent| ==> MessageOk(s.store, plan, s.sent[i]))
  }

  /** The call may draw a revision id in its next step. */
  predicate MayWrite(call: Call) {
    call.PageRequest? || call.at.Committing? || call.at.Orphaned?
  }

  /** What the environment guarantees of an action. */
  ghost predicate Allowed(s: System, plan: Plan, a: Action) {
    match a
    case BeginPage(_, call) => true
    case BeginRoom(_, task) => TaskOk(plan, task)
    case Advance(id, env, _) =>
      && (id in s.calls && MayWrite(s.calls[id]) ==> FreshId(s.store, env.revisionId))
      && (id in s.calls && s.calls[id].PageRequest? ==> CallLegal(s.store, s.calls[id].call))
    case Crash(_) => true
    case Expire(_) => true
  }

  // ------------------------------------------------------------------- what growth preserves

  lemma OnChainStays(st: State, after: State, p: string, head: Head)
    requires OnChain(st, p, head) && Grown(st, after)
    ensures OnChain(after, p, head)
  {
  }

  lemma CommitCallStays(st: State, after: State, plan: Plan, task: RoomTask, room: Head, next: Document, pc: PagePc)
    requires task.Submit? && CommitCallOk(st, plan, task, room, next, pc) && Grown(st, after)
    ensures CommitCallOk(after, plan, task, room, next, pc)
  {
    assert PageGrown(st, after, task.pageId);
    CommitStays(st, after, plan, CommitOf(task, next), task.patchId, room, task.ops);
    PageCallStays(st, after, SaveCall(CommitOf(task, next)), pc);
  }

  lemma RoomCallStays(st: State, after: State, plan: Plan, task: RoomTask, at: RoomPc)
    requires RoomCallOk(st, plan, task, at) && Grown(st, after)
    ensures RoomCallOk(after, plan, task, at)
  {
    match at
    case AtRoom =>
    case AtHead =>
    case AtStore(head) => OnChainStays(st, after, task.pageId, head);
    case InHand(head) => OnChainStays(st, after, task.pageId, head);
    case Committing(room, next, pc) => CommitCallStays(st, after, plan, task, room, next, pc);
    case Orphaned(room, next, pc) => CommitCallStays(st, after, plan, task, room, next, pc);
    case Committed(next, no, id) =>
      OnChainStays(st, after, task.pageId, Head(no, id, next));
      assert PageGrown(st, after, task.pageId);
      PatchStaysOnChain(Chain(st, task.pageId), Chain(after, task.pageId), Intent(task.base, task.ops), no, id);
    case Aborted => assert PageGrown(st, after, task.pageId);
    case AbortedWith(head) => OnChainStays(st, after, task.pageId, head);
  }

  lemma CallStays(st: State, after: State, plan: Plan, call: Call)
    requires CallOk(st, plan, call) && Grown(st, after)
    ensures CallOk(after, plan, call)
  {
    match call
    case PageRequest(c, pc) => PageCallStays(st, after, c, pc);
    case RoomRequest(task, at) => RoomCallStays(st, after, plan, task, at);
  }

  lemma MessageStays(st: State, after: State, plan: Plan, m: Message)
    requires MessageOk(st, plan, m) && Grown(st, after)
    ensures MessageOk(after, plan, m)
  {
    match m
    case SessionJoined(p, head) => OnChainStays(st, after, p, head);
    case RebaseNeeded(p, _, head) => OnChainStays(st, after, p, head);
    case PatchAccepted(p, base, _, ops, no, id) =>
      assert PageGrown(st, after, p);
      PatchStaysOnChain(Chain(st, p), Chain(after, p), Intent(base, ops), no, id);
    case PatchRejected(_, _) =>
  }

  lemma RoomStays(st: State, after: State, key: string, room: Room)
    requires RoomOk(st, key, room) && Grown(st, after)
    ensures RoomOk(after, key, room)
  {
  }
}
