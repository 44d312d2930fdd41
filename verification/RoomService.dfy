/**
 The collaboration service as it runs: the room and presence stores with their expiry, and
 `SubmitPatch`, `Join` and `RefreshExistingRoom` as methods on them and on the page service.
 A call that nothing interrupts is proved to be a run of the interleaved system's steps, so
 what holds of the system in every reachable state holds after the methods as well.
 */
module RoomService {
  import opened Wrappers
  import opened Text
  import opened Documents
  import opened Patches
  import opened PageStore
  import opened UseCases
  import opened DraftChain
  import opened PageCalls
  import opened PageInterleaving
  import opened Uninterrupted
  import opened PageServiceRun
  import opened Collaboration
  import opened CollaborationSafety

  // ------------------------------------------------------------------------ the two stores

  datatype StoredRoom = StoredRoom(room: Room, expiresAt: int)

  const NEVER := 0
  const DEFAULT_TTL := 45 * 1_000_000_000

  predicate IsLive(expiresAt: int, now: int) {
    expiresAt == NEVER || now <= expiresAt
  }

  class RoomStateStore {
    var values: map<string, StoredRoom>

    constructor ()
      ensures values == map[]
    {
      values := map[];
    }

    /** The rooms a reader can still see. */
    ghost function Live(now: int): map<string, Room>
      reads this
    {
      map k | k in values && IsLive(values[k].expiresAt, now) :: values[k].room
    }

    method Get(key: string, now: int) returns (stored: Option<StoredRoom>)
      ensures stored.Some? <==> key in Live(now)
      ensures stored.Some? ==> stored.value == values[key] && stored.value.room == Live(now)[key]
      ensures stored.Some? <==> key in values && (values[key].expiresAt == 0 || now <= values[key].expiresAt)
    {
      if key !in values || (values[key].expiresAt != NEVER && now > values[key].expiresAt) {
        return None;
      }
      return Some(values[key]);
    }

    method Save(key: string, room: Room, ttl: int, now: int)
      modifies this
      ensures values == old(values)[key := StoredRoom(room, now + ttl)]
    {
      values := values[key := StoredRoom(room, now + ttl)];
    }

    method Delete(key: string)
      modifies this
      ensures values == old(values) - {key}
    {
      values := values - {key};
    }
  }

  class PresenceStore {
    /** Per room, until when each session counts as present. */
    var members: map<string, map<string, int>>

    constructor ()
      ensures members == map[]
    {
      members := map[];
    }

    ghost function In(room: string): map<string, int>
      reads this
    {
      if room in members then members[room] else map[]
    }

    ghost function Present(room: string, now: int): set<string>
      reads this
    {
      set id | id in In(room) && IsLive(In(room)[id], now)
    }

    method Upsert(room: string, sessionId: string, ttl: int, now: int)
      modifies this
      ensures In(room) == old(In(room))[sessionId := now + ttl]
      ensures forall other :: other != room ==> In(other) == old(In(other))
    {
      var inRoom := if room in members then members[room] else map[];
      members := members[room := inRoom[sessionId := now + ttl]];
    }

    method Touch(room: string, sessionId: string, seenAt: int, ttl: int) returns (found: bool)
      modifies this
      ensures found <==> sessionId in old(In(room))
      ensures In(room) == if found then old(In(room))[sessionId := seenAt + ttl] else old(In(room))
      ensures forall other :: other != room ==> In(other) == old(In(other))
    {
      if room !in members || sessionId !in members[room] {
        return false;
      }
      members := members[room := members[room][sessionId := seenAt + ttl]];
      return true;
    }

    method Remove(room: string, sessionId: string)
      modifies this
      ensures In(room) == old(In(room)) - {sessionId}
      ensures forall other :: other != room ==> In(other) == old(In(other))
    {
      if room in members {
        var left := members[room] - {sessionId};
        if left == map[] {
          members := members - {room};
        } else {
          members := members[room := left];
        }
      }
    }

    /** Lists who is present and forgets, during the same pass, who is not. */
    method List(room: string, now: int) returns (result: set<string>)
      modifies this
      ensures result == old(Present(room, now))
      ensures forall id :: id in result <==> id in old(In(room)) && (old(In(room))[id] == 0 || now <= old(In(room))[id])
      ensures In(room) == map id | id in old(In(room)) && id in result :: old(In(room))[id]
      ensures forall other :: other != room ==> In(other) == old(In(other))
    {
      result := {};
      var inRoom := if room in members then members[room] else map[];
      var all := inRoom;
      var todo := all.Keys;
      while todo != {}
        invariant todo <= all.Keys
        invariant result == set id | id in all.Keys - todo && IsLive(all[id], now)
        invariant inRoom == map id | id in all && (id in todo || id in result) :: all[id]
        decreases todo
      {
        var id :| id in todo;
        todo := todo - {id};
        if all[id] != NEVER && now > all[id] {
          inRoom := inRoom - {id};
        } else {
          result := result + {id};
        }
      }
      if inRoom == map[] {
        members := members - {room};
      } else {
        members := members[room := inRoom];
      }
    }
  }

  // ----------------------------------------------------------------- one call left to itself

  /** The system after n steps of call 0 and nothing else. */
  function Steps(s: System, env: Env, present: bool, n: nat): System
    decreases n, 0
  {
    if n == 0 then s else StepsNext(s, env, present, n - 1)
  }

  function StepsNext(s: System, env: Env, present: bool, n: nat): System
    decreases n, 2
  {
    StepAfter(s, env, present, n)
  }

  function StepAfter(s: System, env: Env, present: bool, n: nat): System
    decreases n, 1
  {
    Do(Steps(s, env, present, n), Advance(0, env, present))
  }

  lemma OneMoreStep(s: System, env: Env, present: bool, n: nat, now: System, task: RoomTask, at: RoomPc)
    requires Steps(s, env, present, n) == now && 0 in now.calls && now.calls[0] == RoomRequest(task, at)
    ensures Steps(s, env, present, n + 1) == RoomRequestStep(now, 0, task, at, env, present)
  {
    assert Steps(s, env, present, n + 1) == StepsNext(s, env, present, n) == StepAfter(s, env, present, n);
  }

  lemma {:induction false} StepsCompose(s: System, env: Env, present: bool, n: nat, m: nat)
    ensures Steps(Steps(s, env, present, n), env, present, m) == Steps(s, env, present, n + m)
    decreases m
  {
    if m > 0 {
      StepsCompose(s, env, present, n, m - 1);
      assert Steps(s, env, present, n + m) == StepsNext(s, env, present, n + m - 1) == StepAfter(s, env, present, n + m - 1);
      assert Steps(Steps(s, env, present, n), env, present, m) == StepsNext(Steps(s, env, present, n), env, present, m - 1)
          == StepAfter(Steps(s, env, present, n), env, present, m - 1);
    }
  }

  /** The commit's steps follow the steps of its save, until the save has an answer. */
  ghost predicate CommitFollows(s: System, task: RoomTask, room: Head, next: Document, o: Progress, now: System)
    requires task.Submit?
  {
    o.Going? && now == Moved(s.(store := o.store), 0, task, Committing(room, next, o.pc))
  }

  lemma {:induction false} CommitRunsAlone(s: System, task: RoomTask, room: Head, next: Document, env: Env, present: bool, m: nat)
    returns (k: nat)
    requires task.Submit? && 0 in s.calls && s.calls[0] == RoomRequest(task, Committing(room, next, AtKey))
    ensures CommitIsAt(s, task, room, next, env, present, k, m, Alone(s.store, SaveCall(CommitOf(task, next)), env, m))
    decreases m
  {
    if m == 0 {
      k := 0;
      assert s == Moved(s, 0, task, Committing(room, next, AtKey));
    } else {
      k := CommitRunsAlone(s, task, room, next, env, present, m - 1);
      k := CommitStepsOn(s, task, room, next, env, present, k, m - 1, Alone(s.store, SaveCall(CommitOf(task, next)), env, m - 1));
    }
  }

  /** Where the commit's steps are when its save has made this progress. */
  ghost predicate CommitIsAt(s: System, task: RoomTask, room: Head, next: Document, env: Env, present: bool, k: nat, m: nat,
                             o: Progress)
    requires task.Submit?
  {
    && k <= m
    && if o.Going? then k == m && CommitFollows(s, task, room, next, o, Steps(s, env, present, k))
       else Steps(s, env, present, k) == CommitStep(s, 0, task, Committing(room, next, AtKey), o)
  }

  lemma CommitStepsOn(s: System, task: RoomTask, room: Head, next: Document, env: Env, present: bool, j: nat, m: nat,
                      before: Progress) returns (k: nat)
    requires task.Submit? && 0 in s.calls && s.calls[0] == RoomRequest(task, Committing(room, next, AtKey))
    requires before == Alone(s.store, SaveCall(CommitOf(task, next)), env, m)
    requires CommitIsAt(s, task, room, next, env, present, j, m, before)
    ensures CommitIsAt(s, task, room, next, env, present, k, m + 1, Alone(s.store, SaveCall(CommitOf(task, next)), env, m + 1))
  {
    AloneStep(s.store, SaveCall(CommitOf(task, next)), env, m, before);
    k := j;
    if before.Going? {
      CommitOneMore(s, task, room, next, env, present, j, before);
      k := j + 1;
    }
  }

  lemma CommitOneMore(s: System, task: RoomTask, room: Head, next: Document, env: Env, present: bool, k: nat, before: Progress)
    requires task.Submit? && before.Going?
    requires CommitFollows(s, task, room, next, before, Steps(s, env, present, k))
    ensures var o := PageStep(before.store, SaveCall(CommitOf(task, next)), before.pc, env);
            if o.Going? then CommitFollows(s, task, room, next, o, Steps(s, env, present, k + 1))
            else Steps(s, env, present, k + 1) == CommitStep(s, 0, task, Committing(room, next, AtKey), o)
  {
    var now := Steps(s, env, present, k);
    var o := SaveStep(before.store, CommitOf(task, next), before.pc, env);
    OneMoreStep(s, env, present, k, now, task, Committing(room, next, before.pc));
    SameCommitStep(s, now, task, room, next, before.pc, before.store, o);
  }

  lemma SameCommitStep(s: System, now: System, task: RoomTask, room: Head, next: Document, pc: PagePc, st: State, o: Progress)
    requires task.Submit? && now == Moved(s.(store := st), 0, task, Committing(room, next, pc))
    ensures o.Going? ==> CommitStep(now, 0, task, Committing(room, next, pc), o)
                         == Moved(s.(store := o.store), 0, task, Committing(room, next, o.pc))
    ensures o.Ended? ==> CommitStep(now, 0, task, Committing(room, next, pc), o)
                         == CommitStep(s, 0, task, Committing(room, next, AtKey), o)
  {
    assert (s.calls[0 := RoomRequest(task, Committing(room, next, pc))]) - {0} == s.calls - {0};
  }

  // -------------------------------------------------------------- the stations of one call

  function LockOf(task: RoomTask): set<string> {
    if task.Submit? then {KeyOf(task)} else {}
  }

  /** Call 0 is alone in the system, at this place, with its lock if it takes one. */
  function At(st: State, rooms: map<string, Room>, task: RoomTask, at: RoomPc): System {
    System(st, rooms, LockOf(task), map[0 := RoomRequest(task, at)], [])
  }

  function Begun(st: State, rooms: map<string, Room>, task: RoomTask): System {
    System(st, rooms, {}, map[0 := RoomRequest(task, AtRoom)], [])
  }

  function Over(st: State, rooms: map<string, Room>, sent: seq<Message>): System {
    System(st, rooms, {}, map[], sent)
  }

  lemma StartStage(st: State, rooms: map<string, Room>, task: RoomTask, env: Env, present: bool)
    ensures Steps(Begun(st, rooms, task), env, present, 1)
            == if KeyOf(task) !in rooms then (if task.Refresh? then Over(st, rooms, []) else At(st, rooms, task, AtHead))
               else if task.Refresh? then At(st, rooms, task, AtHead)
               else At(st, rooms, task, InHand(rooms[KeyOf(task)].head))
  {
    var b := Begun(st, rooms, task);
    OneMoreStep(b, env, present, 0, b, task, AtRoom);
    assert b.calls - {0} == map[];
    assert forall at: RoomPc :: b.calls[0 := RoomRequest(task, at)] == map[0 := RoomRequest(task, at)];
  }

  /** The rooms after the call's save, and the system that has saved it. */
  lemma EndsCall(s: System, task: RoomTask, at: RoomPc)
    requires s == At(s.store, s.rooms, task, at)
    ensures forall t: System :: t.calls == s.calls && t.held == s.held ==>
              Finished(t, 0, task) == System(t.store, t.rooms, {}, map[], t.sent)
    ensures forall t: System, to: RoomPc :: t.calls == s.calls ==> Moved(t, 0, task, to).calls == map[0 := RoomRequest(task, to)]
  {
  }

  lemma HeadStage(b: System, env: Env, present: bool, n: nat, st: State, rooms: map<string, Room>, task: RoomTask,
                  aborted: bool, o: Outcome)
    requires Steps(b, env, present, n) == At(st, rooms, task, if aborted then Aborted else AtHead)
    requires o == ReadView(World(st, map[], 0), task.pageId, DraftKind, env.files)
    ensures Steps(b, env, present, n + 1)
            == if o.response.HeadIs?
               then At(o.world.store, rooms, task, if aborted then AbortedWith(o.response.head) else AtStore(o.response.head))
               else Over(o.world.store, rooms, [])
  {
    var at := if aborted then Aborted else AtHead;
    OneMoreStep(b, env, present, n, At(st, rooms, task, at), task, at);
    EndsCall(At(st, rooms, task, at), task, at);
  }

  lemma StoreStage(b: System, env: Env, present: bool, n: nat, st: State, rooms: map<string, Room>, task: RoomTask, head: Head)
    requires Steps(b, env, present, n) == At(st, rooms, task, AtStore(head))
    ensures var after := rooms[KeyOf(task) := Room(task.pageId, head)];
            Steps(b, env, present, n + 1)
            == if task.Refresh? then Over(st, after, []) else At(st, after, task, InHand(head))
  {
    OneMoreStep(b, env, present, n, At(st, rooms, task, AtStore(head)), task, AtStore(head));
    EndsCall(At(st, rooms, task, AtStore(head)), task, AtStore(head));
  }

  /** What a submit with the room in hand comes to: an answer at once, or the patched document. */
  function Decide(task: RoomTask, head: Head, present: bool): Result<Document, Message>
    requires task.Submit?
  {
    if !present then Err(PatchRejected(task.pageId, task.patchId))
    else if head.no != task.base then Err(RebaseNeeded(task.pageId, task.base, head))
    else
      match ApplyPatch(head.document, task.ops)
      case Err(_) => Err(PatchRejected(task.pageId, task.patchId))
      case Ok(next) => Ok(next)
  }

  /** When a submit is rejected, told to rebase, or goes on to commit, and with what. */
  lemma DecideMeans(task: RoomTask, head: Head, present: bool)
    requires task.Submit?
    ensures forall next :: Decide(task, head, present) == Ok(next)
              <==> present && head.no == task.base && ApplyPatch(head.document, task.ops) == Ok(next)
    ensures Decide(task, head, present) == Err(RebaseNeeded(task.pageId, task.base, head)) <==> present && head.no != task.base
    ensures Decide(task, head, present) == Err(PatchRejected(task.pageId, task.patchId))
            <==> (!present || (head.no == task.base && ApplyPatch(head.document, task.ops).Err?))
  {
  }

  lemma HandStage(b: System, env: Env, present: bool, n: nat, st: State, rooms: map<string, Room>, task: RoomTask, head: Head,
                  decided: Result<Document, Message>)
    requires task.Submit? && decided == Decide(task, head, present)
    requires Steps(b, env, present, n) == At(st, rooms, task, InHand(head))
    ensures Steps(b, env, present, n + 1)
            == match decided
               case Err(m) => Over(st, rooms, [m])
               case Ok(next) => At(st, rooms, task, Committing(head, next, AtKey))
  {
    OneMoreStep(b, env, present, n, At(st, rooms, task, InHand(head)), task, InHand(head));
    EndsCall(At(st, rooms, task, InHand(head)), task, InHand(head));
  }

  lemma JoinStage(b: System, env: Env, present: bool, n: nat, st: State, rooms: map<string, Room>, task: RoomTask, head: Head)
    requires task.Join? && Steps(b, env, present, n) == At(st, rooms, task, InHand(head))
    ensures Steps(b, env, present, n + 1)
            == Over(st, rooms, [if 0 < task.lastKnown < head.no then RebaseNeeded(task.pageId, task.lastKnown, head)
                                else SessionJoined(task.pageId, head)])
  {
    OneMoreStep(b, env, present, n, At(st, rooms, task, InHand(head)), task, InHand(head));
    EndsCall(At(st, rooms, task, InHand(head)), task, InHand(head));
  }

  lemma AcceptStage(b: System, env: Env, present: bool, n: nat, st: State, rooms: map<string, Room>, task: RoomTask,
                    next: Document, no: int, id: string)
    requires task.Submit? && Steps(b, env, present, n) == At(st, rooms, task, Committed(next, no, id))
    ensures Steps(b, env, present, n + 1)
            == Over(st, rooms[KeyOf(task) := Room(task.pageId, Head(no, id, next))],
                    [PatchAccepted(task.pageId, task.base, task.patchId, task.ops, no, id)])
  {
    var at := Committed(next, no, id);
    OneMoreStep(b, env, present, n, At(st, rooms, task, at), task, at);
    EndsCall(At(st, rooms, task, at), task, at);
  }

  lemma RebaseStage(b: System, env: Env, present: bool, n: nat, st: State, rooms: map<string, Room>, task: RoomTask, head: Head)
    requires task.Submit? && Steps(b, env, present, n) == At(st, rooms, task, AbortedWith(head))
    ensures Steps(b, env, present, n + 1)
            == Over(st, rooms[KeyOf(task) := Room(task.pageId, head)], [RebaseNeeded(task.pageId, task.base, head)])
  {
    OneMoreStep(b, env, present, n, At(st, rooms, task, AbortedWith(head)), task, AbortedWith(head));
    EndsCall(At(st, rooms, task, AbortedWith(head)), task, AbortedWith(head));
  }

  /** Where the call is once the commit was answered. */
  function Answered(task: RoomTask, next: Document, rooms: map<string, Room>, o: Progress): System
    requires o.Ended?
  {
    if o.response.Accepted?
    then At(o.store, rooms, task, Committed(next, o.response.revisionNo, o.response.revisionId))
    else if o.response.Refused? && o.response.error.RebaseRequired? then At(o.store, rooms, task, Aborted)
    else Over(o.store, rooms, [])
  }

  /**
   An accepted commit is on its way to its room, one that must rebase on its way to the newer
   head; after any other answer the call is over, without a message.
   */
  lemma AnsweredMeans(task: RoomTask, next: Document, rooms: map<string, Room>, o: Progress)
    requires o.Ended?
    ensures var s := Answered(task, next, rooms, o);
            && s.store == o.store && s.rooms == rooms && s.sent == []
            && match o.response
               case Accepted(_, id, no) => s.calls == map[0 := RoomRequest(task, Committed(next, no, id))]
               case Refused(RebaseRequired(_, _, _)) => s.calls == map[0 := RoomRequest(task, Aborted)]
               case _ => s.calls == map[] && s.held == {}
  {
  }

  /** The whole commit of a call left to itself. */
  lemma CommitStage(b: System, env: Env, present: bool, n: nat, st: State, rooms: map<string, Room>, task: RoomTask,
                    room: Head, next: Document, o: Progress) returns (m: nat)
    requires task.Submit? && o.Ended? && Alone(st, SaveCall(CommitOf(task, next)), env, 4) == o
    requires Steps(b, env, present, n) == At(st, rooms, task, Committing(room, next, AtKey))
    ensures Steps(b, env, present, m) == Answered(task, next, rooms, o)
  {
    var k := CommitEndsAlone(st, rooms, task, room, next, env, present, o);
    StepsCompose(b, env, present, n, k);
    m := n + k;
  }

  lemma CommitEndsAlone(st: State, rooms: map<string, Room>, task: RoomTask, room: Head, next: Document, env: Env,
                        present: bool, o: Progress) returns (k: nat)
    requires task.Submit? && o.Ended? && Alone(st, SaveCall(CommitOf(task, next)), env, 4) == o
    ensures Steps(At(st, rooms, task, Committing(room, next, AtKey)), env, present, k) == Answered(task, next, rooms, o)
  {
    var s := At(st, rooms, task, Committing(room, next, AtKey));
    k := CommitRunsAlone(s, task, room, next, env, present, 4);
    AnsweredStage(s, task, room, next, o);
  }

  lemma AnsweredStage(s: System, task: RoomTask, room: Head, next: Document, o: Progress)
    requires task.Submit? && o.Ended? && s == At(s.store, s.rooms, task, Committing(room, next, AtKey))
    ensures CommitStep(s, 0, task, Committing(room, next, AtKey), o) == Answered(task, next, s.rooms, o)
  {
  }

  // ---------------------------------------------------------------------------- the service

  /** The room store after a call that saved this key, or nothing: what is stored and what is seen. */
  ghost predicate RoomsAfter(before: map<string, StoredRoom>, live: map<string, Room>, after: map<string, StoredRoom>,
                             rooms: map<string, Room>, key: string, expiresAt: int)
  {
    || (after == before && rooms == live)
    || (key in rooms && rooms == live[key := rooms[key]] && after == before[key := StoredRoom(rooms[key], expiresAt)])
  }

  /** A submit is answered about its own page, base and patch; without a present session it is rejected. */
  predicate AnswersSubmit(m: Message, task: RoomTask, present: bool)
    requires task.Submit?
  {
    match m
    case PatchAccepted(p, base, patchId, ops, _, _) =>
      present && p == task.pageId && base == task.base && patchId == task.patchId && ops == task.ops
    case PatchRejected(p, patchId) => p == task.pageId && patchId == task.patchId
    case RebaseNeeded(p, base, _) => present && p == task.pageId && base == task.base
    case SessionJoined(_, _) => false
  }

  /** How long a refreshed room lives: as told, else what is left of its life, else the default. */
  function LifetimeOf(stored: StoredRoom, ttl: int, now: int): int {
    if ttl > 0 then ttl else if stored.expiresAt > now then stored.expiresAt - now else DEFAULT_TTL
  }

  method Lifetime(stored: StoredRoom, ttl: int, now: int) returns (life: int)
    ensures life == LifetimeOf(stored, ttl, now) && life > 0
  {
    life := ttl;
    if life <= 0 {
      life := stored.expiresAt - now;
    }
    if life <= 0 {
      life := DEFAULT_TTL;
    }
  }

  class CollaborationService {
    const rooms: RoomStateStore
    const presence: PresenceStore
    const page: PageService

    constructor (rooms: RoomStateStore, presence: PresenceStore, page: PageService)
      ensures this.rooms == rooms && this.presence == presence && this.page == page
    {
      this.rooms := rooms;
      this.presence := presence;
      this.page := page;
    }

    ghost function Store(): State
      reads page.store
    {
      page.store.Snapshot()
    }

    /** Reads the room, or fetches the head and saves it: the first steps of submits and joins. */
    method ObtainRoom(task: RoomTask, ttl: int, now: int, env: Env, ghost present: bool)
      returns (head: Option<Head>, ghost n: nat, ghost seen: map<string, Room>)
      requires !task.Refresh?
      modifies rooms, page.store
      ensures RoomsAfter(old(rooms.values), old(rooms.Live(now)), rooms.values, seen, KeyOf(task), now + ttl)
      ensures var read := ReadView(old(page.Now()), task.pageId, DraftKind, env.files).response;
              head == if KeyOf(task) in old(rooms.Live(now)) then Some(old(rooms.Live(now))[KeyOf(task)].head)
                      else if read.HeadIs? then Some(read.head) else None
      ensures rooms.values
              == if KeyOf(task) in old(rooms.Live(now)) || head.None? then old(rooms.values)
                 else old(rooms.values)[KeyOf(task) := StoredRoom(Room(task.pageId, head.value), now + ttl)]
      ensures Steps(Begun(old(Store()), old(rooms.Live(now)), task), env, present, n)
              == if head.Some? then At(Store(), seen, task, InHand(head.value)) else Over(Store(), seen, [])
      ensures Store().pages == old(Store()).pages
    {
      ghost var st, live := Store(), rooms.Live(now);
      StartStage(st, live, task, env, present);
      var key := task.workspaceId + "::" + task.pageId;
      var found := rooms.Get(key, now);
      if found.Some? {
        return Some(found.value.room.head), 1, live;
      }
      head, n, seen := Reload(task, ttl, now, env, Begun(st, live, task), present, rooms.values, live);
    }

    /** `reloadRoom`: the fetched head becomes the room. */
    method Reload(task: RoomTask, life: int, now: int, env: Env, ghost b: System, ghost present: bool,
                  ghost before: map<string, StoredRoom>, ghost live: map<string, Room>)
      returns (head: Option<Head>, ghost n: nat, ghost seen: map<string, Room>)
      requires Steps(b, env, present, 1) == At(Store(), live, task, AtHead) && before == rooms.values
      modifies rooms, page.store
      ensures RoomsAfter(before, live, rooms.values, seen, KeyOf(task), now + life)
      ensures var read := ReadView(old(page.Now()), task.pageId, DraftKind, env.files).response;
              head == if read.HeadIs? then Some(read.head) else None
      ensures rooms.values == if head.None? then old(rooms.values)
                              else old(rooms.values)[KeyOf(task) := StoredRoom(Room(task.pageId, head.value), now + life)]
      ensures Steps(b, env, present, n)
              == if head.Some? && !task.Refresh? then At(Store(), seen, task, InHand(head.value)) else Over(Store(), seen, [])
      ensures Store().pages == old(Store()).pages
    {
      var response := FetchHead(task, env, b, present, 1, live, false);
      if !response.HeadIs? {
        return None, 2, live;
      }
      StoreStage(b, env, present, 2, Store(), live, task, response.head);
      seen := KeepRoom(task, response.head, life, now, before, live, live);
      return Some(response.head), 3, seen;
    }

    /** `GetRevisionHead` at the page service, as a step of the call. */
    method FetchHead(task: RoomTask, env: Env, ghost b: System, ghost present: bool, ghost n: nat,
                     ghost seen: map<string, Room>, ghost aborted: bool) returns (response: Response)
      requires Steps(b, env, present, n) == At(Store(), seen, task, if aborted then Aborted else AtHead)
      modifies page.store
      ensures Steps(b, env, present, n + 1)
              == if response.HeadIs?
                 then At(Store(), seen, task, if aborted then AbortedWith(response.head) else AtStore(response.head))
                 else Over(Store(), seen, [])
      ensures response == ReadView(old(page.Now()), task.pageId, DraftKind, env.files).response
      ensures Store().pages == old(Store()).pages
    {
      ghost var w := page.Now();
      response := page.GetRevisionHead(task.pageId, env.files);
      HeadIgnoresWindows(w, task.pageId, env.files);
      HeadStage(b, env, present, n, w.store, seen, task, aborted, ReadView(World(w.store, map[], 0), task.pageId, DraftKind, env.files));
    }

    /** `SubmitPatch.Execute`; no answer stands for an error returned to the caller. */
    method SubmitPatch(task: RoomTask, sessionId: string, ttl: int, now: int, env: Env)
      returns (answer: Option<Message>, ghost n: nat, ghost seen: map<string, Room>)
      requires task.Submit? && OwnIds(Store())
      modifies rooms, presence, page.store, page.window
      ensures var present := sessionId in old(presence.Present(KeyOf(task), now));
              Steps(Begun(old(Store()), old(rooms.Live(now)), task), env, present, n)
              == Over(Store(), seen, if answer.Some? then [answer.value] else [])
      ensures RoomsAfter(old(rooms.values), old(rooms.Live(now)), rooms.values, seen, KeyOf(task), now + ttl)
      ensures answer.Some? ==> AnswersSubmit(answer.value, task, sessionId in old(presence.Present(KeyOf(task), now)))
      ensures answer.Some? && answer.value.PatchAccepted? ==>
                && KeyOf(task) in rooms.values && rooms.values[KeyOf(task)].expiresAt == now + ttl
                && rooms.values[KeyOf(task)].room.pageId == task.pageId
                && rooms.values[KeyOf(task)].room.head.no == answer.value.no
                && rooms.values[KeyOf(task)].room.head.id == answer.value.id
    {
      ghost var b, before, live := Begun(Store(), rooms.Live(now), task), rooms.values, rooms.Live(now);
      ghost var present := sessionId in presence.Present(KeyOf(task), now);
      var room: Option<Head>;
      room, n, seen := ObtainRoom(task, ttl, now, env, present);
      if room.None? {
        return None, n, seen;
      }
      var decided := CheckPatch(task, sessionId, room.value, now);
      HandStage(b, env, present, n, Store(), seen, task, room.value, decided);
      if decided.Err? {
        return Some(decided.error), n + 1, seen;
      }
      answer, n, seen := Commit(task, room.value, decided.value, ttl, now, env, b, present, n + 1, before, live, seen);
    }

    /** The checks of a submit: the session, the base, the operations. */
    method CheckPatch(task: RoomTask, sessionId: string, room: Head, now: int) returns (decided: Result<Document, Message>)
      requires task.Submit?
      modifies presence
      ensures decided == Decide(task, room, sessionId in old(presence.Present(KeyOf(task), now)))
    {
      var members := presence.List(task.workspaceId + "::" + task.pageId, now);
      if sessionId !in members {
        return Err(PatchRejected(task.pageId, task.patchId));
      }
      if room.no != task.base {
        return Err(RebaseNeeded(task.pageId, task.base, room));
      }
      var next := ApplyPatch(room.document, task.ops);
      if next.Err? {
        return Err(PatchRejected(task.pageId, task.patchId));
      }
      return Ok(next.value);
    }

    /** Saves the room of the call. */
    method KeepRoom(task: RoomTask, head: Head, life: int, now: int, ghost before: map<string, StoredRoom>,
                    ghost live: map<string, Room>, ghost was: map<string, Room>) returns (ghost seen: map<string, Room>)
      requires RoomsAfter(before, live, rooms.values, was, KeyOf(task), now + life)
      modifies rooms
      ensures seen == was[KeyOf(task) := Room(task.pageId, head)]
      ensures rooms.values == old(rooms.values)[KeyOf(task) := StoredRoom(Room(task.pageId, head), now + life)]
      ensures RoomsAfter(before, live, rooms.values, seen, KeyOf(task), now + life)
    {
      rooms.Save(task.workspaceId + "::" + task.pageId, Room(task.pageId, head), life, now);
      seen := was[KeyOf(task) := Room(task.pageId, head)];
    }

    /** The second half of a submit: commit, then save the room or fetch the newer head. */
    method Commit(task: RoomTask, room: Head, next: Document, ttl: int, now: int, env: Env, ghost b: System,
                  ghost present: bool, ghost k: nat, ghost before: map<string, StoredRoom>, ghost live: map<string, Room>,
                  ghost was: map<string, Room>)
      returns (answer: Option<Message>, ghost n: nat, ghost seen: map<string, Room>)
      requires task.Submit? && OwnIds(Store())
      requires Steps(b, env, present, k) == At(Store(), was, task, Committing(room, next, AtKey))
      requires RoomsAfter(before, live, rooms.values, was, KeyOf(task), now + ttl)
      modifies rooms, page.store, page.window
      ensures Steps(b, env, present, n) == Over(Store(), seen, if answer.Some? then [answer.value] else [])
      ensures RoomsAfter(before, live, rooms.values, seen, KeyOf(task), now + ttl)
      ensures answer.Some? ==> AnswersSubmit(answer.value, task, true)
      ensures answer.Some? && answer.value.PatchAccepted? ==>
                KeyOf(task) in rooms.values
                && rooms.values[KeyOf(task)] == StoredRoom(Room(task.pageId, Head(answer.value.no, answer.value.id, next)), now + ttl)
    {
      var response;
      response, n := CommitRevision(task, room, next, env, b, present, k, was);
      if response.Refused? && response.error.RebaseRequired? {
        answer, n, seen := Rebase(task, ttl, now, env, b, present, n, before, live, was);
        return;
      }
      if !response.Accepted? {
        return None, n, was;
      }
      AcceptStage(b, env, present, n, Store(), was, task, next, response.revisionNo, response.revisionId);
      seen := KeepRoom(task, Head(response.revisionNo, response.revisionId, next), ttl, now, before, live, was);
      return Some(PatchAccepted(task.pageId, task.base, task.patchId, task.ops, response.revisionNo, response.revisionId)),
        n + 1, seen;
    }

    /** After an aborted commit: the newer head becomes the room and the answer. */
    method Rebase(task: RoomTask, ttl: int, now: int, env: Env, ghost b: System, ghost present: bool, ghost k: nat,
                  ghost before: map<string, StoredRoom>, ghost live: map<string, Room>, ghost was: map<string, Room>)
      returns (answer: Option<Message>, ghost n: nat, ghost seen: map<string, Room>)
      requires task.Submit? && Steps(b, env, present, k) == At(Store(), was, task, Aborted)
      requires RoomsAfter(before, live, rooms.values, was, KeyOf(task), now + ttl)
      modifies rooms, page.store
      ensures Steps(b, env, present, n) == Over(Store(), seen, if answer.Some? then [answer.value] else [])
      ensures RoomsAfter(before, live, rooms.values, seen, KeyOf(task), now + ttl)
      ensures answer.Some? ==> AnswersSubmit(answer.value, task, true) && answer.value.RebaseNeeded?
    {
      var newer := FetchHead(task, env, b, present, k, was, true);
      if !newer.HeadIs? {
        return None, k + 1, was;
      }
      RebaseStage(b, env, present, k + 1, Store(), was, task, newer.head);
      seen := KeepRoom(task, newer.head, ttl, now, before, live, was);
      return Some(RebaseNeeded(task.pageId, task.base, newer.head)), k + 2, seen;
    }

    /** `CommitRevision` at the page service, as the steps of the call. */
    method CommitRevision(task: RoomTask, room: Head, next: Document, env: Env, ghost b: System, ghost present: bool,
                          ghost k: nat, ghost was: map<string, Room>) returns (response: Response, ghost n: nat)
      requires task.Submit? && OwnIds(Store())
      requires Steps(b, env, present, k) == At(Store(), was, task, Committing(room, next, AtKey))
      modifies page.store, page.window
      ensures Steps(b, env, present, n) == Answered(task, next, was, Ended(response, Store()))
    {
      ghost var w := page.Now();
      var input := CommitInput(task.pageId, task.workspaceId, task.actor, task.base, task.patchId, next);
      response := page.SaveSnapshot(input, env);
      SaveAloneIsSave(w, input, env, Outcome(page.Now(), response));
      n := CommitStage(b, env, present, k, w.store, was, task, room, next, Ended(response, Store()));
    }

    /** `Join`: answers with the room, cached or fetched, unless the client knows an older revision. */
    method Join(task: RoomTask, sessionId: string, ttl: int, now: int, env: Env, ghost present: bool)
      returns (answer: Option<Message>, ghost n: nat, ghost seen: map<string, Room>)
      requires task.Join?
      modifies rooms, presence, page.store
      ensures Steps(Begun(old(Store()), old(rooms.Live(now)), task), env, present, n)
              == Over(Store(), seen, if answer.Some? then [answer.value] else [])
      ensures RoomsAfter(old(rooms.values), old(rooms.Live(now)), rooms.values, seen, KeyOf(task), now + ttl)
      ensures answer.Some? && answer.value.SessionJoined? && ttl >= 0 && now + ttl != NEVER ==>
                sessionId in presence.Present(KeyOf(task), now)
      ensures answer.Some? ==>
                && answer.value.pageId == task.pageId
                && (if answer.value.SessionJoined? then task.lastKnown <= 0 || task.lastKnown >= answer.value.head.no
                    else && answer.value.RebaseNeeded? && answer.value.base == task.lastKnown
                         && 0 < task.lastKnown < answer.value.head.no && presence.members == old(presence.members))
      ensures answer.Some? && KeyOf(task) in old(rooms.Live(now)) ==> answer.value.head == old(rooms.Live(now))[KeyOf(task)].head
    {
      ghost var b := Begun(Store(), rooms.Live(now), task);
      var room: Option<Head>;
      room, n, seen := ObtainRoom(task, ttl, now, env, present);
      if room.None? {
        return None, n, seen;
      }
      JoinStage(b, env, present, n, Store(), seen, task, room.value);
      if task.lastKnown > 0 && task.lastKnown < room.value.no {
        return Some(RebaseNeeded(task.pageId, task.lastKnown, room.value)), n + 1, seen;
      }
      presence.Upsert(task.workspaceId + "::" + task.pageId, sessionId, ttl, now);
      return Some(SessionJoined(task.pageId, room.value)), n + 1, seen;
    }

    /**
     `RefreshExistingRoom`: fetches the head for a room that exists and overwrites it; without
     a lifetime of its own the room keeps what is left of the old one, or gets the default.
     */
    method RefreshExistingRoom(task: RoomTask, ttl: int, now: int, env: Env, ghost present: bool)
      returns (ghost n: nat, ghost seen: map<string, Room>)
      requires task.Refresh?
      modifies rooms, page.store
      ensures Steps(Begun(old(Store()), old(rooms.Live(now)), task), env, present, n) == Over(Store(), seen, [])
      ensures RoomsAfter(old(rooms.values), old(rooms.Live(now)), rooms.values, seen, KeyOf(task),
                         now + if KeyOf(task) in old(rooms.values) then LifetimeOf(old(rooms.values)[KeyOf(task)], ttl, now) else ttl)
      ensures var read := ReadView(old(page.Now()), task.pageId, DraftKind, env.files).response;
              if KeyOf(task) !in old(rooms.Live(now)) || !read.HeadIs? then rooms.values == old(rooms.values)
              else
                && KeyOf(task) in rooms.values && rooms.values == old(rooms.values)[KeyOf(task) := rooms.values[KeyOf(task)]]
                && rooms.values[KeyOf(task)].room == Room(task.pageId, read.head)
                && var before, until := old(rooms.values)[KeyOf(task)].expiresAt, rooms.values[KeyOf(task)].expiresAt;
                   && (ttl > 0 ==> until == now + ttl)
                   && (ttl <= 0 && before > now ==> until == before)
                   && (ttl <= 0 && before <= now ==> until == now + 45_000_000_000)
    {
      ghost var st, live := Store(), rooms.Live(now);
      var key := task.workspaceId + "::" + task.pageId;
      StartStage(st, live, task, env, present);
      var found := rooms.Get(key, now);
      if found.None? {
        return 1, live;
      }
      var life := Lifetime(found.value, ttl, now);
      var head;
      head, n, seen := Reload(task, life, now, env, Begun(st, live, task), present, rooms.values, live);
    }
  }

  /** Reading the head concerns the store alone, and no page record. */
  lemma HeadIgnoresWindows(w: World, p: string, files: FileResolver)
    ensures var o := ReadView(w, p, DraftKind, files);
            && ReadView(World(w.store, map[], 0), p, DraftKind, files) == Outcome(World(o.world.store, map[], 0), o.response)
            && o.world.store.pages == w.store.pages
            && (o.response.HeadIs? || o.response.Refused?)
  {
  }

  /** So what holds of every interleaving holds of the methods. */
  lemma {:induction false} CallAloneKeepsInv(s: System, plan: Plan, env: Env, present: bool, n: nat)
    requires SystemInv(s, plan)
    requires forall i :: 0 <= i < n ==> Allowed(Steps(s, env, present, i), plan, Advance(0, env, present))
    ensures SystemInv(Steps(s, env, present, n), plan)
    decreases n
  {
    if n > 0 {
      CallAloneKeepsInv(s, plan, env, present, n - 1);
      ActionKeepsInv(Steps(s, env, present, n - 1), plan, Advance(0, env, present));
      assert Steps(s, env, present, n) == StepsNext(s, env, present, n - 1) == StepAfter(s, env, present, n - 1);
    }
  }
}
