/**
 The patch engine on values: one operation, the fold over a patch, and the laws that make
 patches usable for collaboration (composition, undo, independence, congruence under the
 snapshots the two services keep).
 */
module Patches {
  import opened Wrappers
  import opened Sequences
  import opened Documents

  datatype InsertValue = InsertValue(block: Block, index: Option<int>, after: string)

  /** An operation with its decoded value; None stands for a value of the wrong shape. */
  datatype Op =
    | ReplaceText(blockId: string, text: Option<string>)
    | ReplaceAttrs(blockId: string, attrs: Option<JsonMap>)
    | ReplaceEmbedConfig(blockId: string, config: Option<JsonMap>)
    | Insert(value: Option<InsertValue>)
    | Move(blockId: string, toIndex: Option<int>)
    | Delete(blockId: string)
    | Unsupported(blockId: string)

  datatype PatchError = PatchError(blockId: string, message: string)

  const NO_TARGET := "target block does not exist"

  function WithEmbedConfig(b: Block, config: JsonMap): Block {
    b.(embed := Some(if b.embed.Some? then b.embed.value.(displayConfig := config)
                     else Embed("", "", config, "", map[], [])))
  }

  function InsertPosition(bs: seq<Block>, v: InsertValue): (r: Result<nat, PatchError>)
    ensures r.Ok? ==> r.value <= |bs|
  {
    if v.index.Some? then
      if 0 <= v.index.value <= |bs| then Ok(v.index.value) else Err(PatchError("", "insert index out of range"))
    else if v.after == "" then Ok(|bs|)
    else if Has(bs, v.after) then Ok(Find(bs, v.after) + 1)
    else Err(PatchError(v.after, "after_block_id does not exist"))
  }

  /** One operation; edits, moves and deletes address the first block with the id. */
  function Step(bs: seq<Block>, op: Op): Result<seq<Block>, PatchError> {
    match op
    case ReplaceText(id, text) =>
      if !Has(bs, id) then Err(PatchError(id, NO_TARGET))
      else if text.None? then Err(PatchError(id, "value must be a string"))
      else Ok(bs[Find(bs, id) := bs[Find(bs, id)].(text := text.value)])
    case ReplaceAttrs(id, attrs) =>
      if !Has(bs, id) then Err(PatchError(id, NO_TARGET))
      else if attrs.None? then Err(PatchError(id, "value must be an object"))
      else Ok(bs[Find(bs, id) := bs[Find(bs, id)].(attrs := attrs.value)])
    case ReplaceEmbedConfig(id, config) =>
      if !Has(bs, id) then Err(PatchError(id, NO_TARGET))
      else if config.None? then Err(PatchError(id, "value must contain display_config"))
      else Ok(bs[Find(bs, id) := WithEmbedConfig(bs[Find(bs, id)], config.value)])
    case Insert(value) =>
      if value.None? then Err(PatchError("", "value must contain block"))
      else
        (match InsertPosition(bs, value.value)
         case Err(e) => Err(e)
         case Ok(i) => Ok(InsertAt(bs, i, value.value.block)))
    case Move(id, toIndex) =>
      if !Has(bs, id) then Err(PatchError(id, NO_TARGET))
      else if toIndex.None? then Err(PatchError(id, "value must contain to_index"))
      else if toIndex.value < 0 || toIndex.value >= |bs| then Err(PatchError(id, "to_index out of range"))
      else Ok(InsertAt(RemoveAt(bs, Find(bs, id)), toIndex.value, bs[Find(bs, id)]))
    case Delete(id) =>
      if !Has(bs, id) then Err(PatchError(id, NO_TARGET)) else Ok(RemoveAt(bs, Find(bs, id)))
    case Unsupported(id) => Err(PatchError(id, "unsupported operation"))
  }

  /** The fold of a patch over the blocks; the first failing operation decides the error. */
  function Apply(bs: seq<Block>, ops: seq<Op>): Result<seq<Block>, PatchError>
    decreases |ops|
  {
    if ops == [] then Ok(bs)
    else
      match Step(bs, ops[0])
      case Err(e) => Err(e)
      case Ok(next) => Apply(next, ops[1..])
  }

  /** The index of the operation that fails, or |ops|. */
  function FailsAt(bs: seq<Block>, ops: seq<Op>): (k: nat)
    ensures k <= |ops|
    ensures k == |ops| <==> Apply(bs, ops).Ok?
    decreases |ops|
  {
    if ops == [] then 0
    else
      match Step(bs, ops[0])
      case Err(_) => 0
      case Ok(next) => 1 + FailsAt(next, ops[1..])
  }

  function ApplyPatch(d: Document, ops: seq<Op>): Result<Document, PatchError> {
    match Apply(d.blocks, ops)
    case Err(e) => Err(e)
    case Ok(bs) => Ok(Document(bs, d.metadata))
  }

  // ------------------------------------------------------------- what an operation amounts to

  /** Block i is the first with this id. */
  predicate FirstWith(bs: seq<Block>, id: string, i: int) {
    0 <= i < |bs| && bs[i].id == id && forall k :: 0 <= k < i ==> bs[k].id != id
  }

  predicate Absent(bs: seq<Block>, id: string) {
    forall k :: 0 <= k < |bs| ==> bs[k].id != id
  }

  /** Only block i differs, if any. */
  predicate OnlyChanged(bs: seq<Block>, cs: seq<Block>, i: int) {
    0 <= i < |bs| == |cs| && forall k :: 0 <= k < |bs| && k != i ==> cs[k] == bs[k]
  }

  /** The block is another with this display config, in an embed that keeps what else it held. */
  predicate Reconfigured(b: Block, c: Block, config: JsonMap) {
    && c.embed.Some? && c.embed.value.displayConfig == config && c == b.(embed := c.embed)
    && (if b.embed.Some? then c.embed.value.(displayConfig := b.embed.value.displayConfig) == b.embed.value
        else c.embed.value == Embed("", "", config, "", map[], []))
  }

  /** The block at `from` stands at `to`, the others keep their order. */
  predicate Relocated(bs: seq<Block>, cs: seq<Block>, from: int, to: int) {
    && 0 <= from < |bs| == |cs| && 0 <= to < |bs| && cs[to] == bs[from]
    && cs[..to] + cs[to + 1..] == bs[..from] + bs[from + 1..]
  }

  predicate EditMeans(bs: seq<Block>, op: Op, cs: seq<Block>, i: int)
    requires IsEdit(op)
  {
    && FirstWith(bs, op.blockId, i) && OnlyChanged(bs, cs, i)
    && match op
       case ReplaceText(_, text) => text.Some? && cs[i] == bs[i].(text := text.value)
       case ReplaceAttrs(_, attrs) => attrs.Some? && cs[i] == bs[i].(attrs := attrs.value)
       case ReplaceEmbedConfig(_, config) => config.Some? && Reconfigured(bs[i], cs[i], config.value)
  }

  predicate InsertMeans(bs: seq<Block>, v: InsertValue, cs: seq<Block>, i: int) {
    && 0 <= i <= |bs| && cs == bs[..i] + [v.block] + bs[i..]
    && (if v.index.Some? then i == v.index.value
        else if v.after != "" then FirstWith(bs, v.after, i - 1)
        else i == |bs|)
  }

  /** An accepted operation leaves these blocks; i is where it works. */
  predicate Means(bs: seq<Block>, op: Op, cs: seq<Block>, i: int) {
    match op
    case Insert(value) => value.Some? && InsertMeans(bs, value.value, cs, i)
    case Move(id, to) => to.Some? && FirstWith(bs, id, i) && Relocated(bs, cs, i, to.value)
    case Delete(id) => FirstWith(bs, id, i) && cs == bs[..i] + bs[i + 1..]
    case Unsupported(_) => false
    case _ => EditMeans(bs, op, cs, i)
  }

  /** The value of an operation whose block is there is no good. */
  predicate BadValue(bs: seq<Block>, op: Op, message: string) {
    match op
    case ReplaceText(_, text) => text.None? && message == "value must be a string"
    case ReplaceAttrs(_, attrs) => attrs.None? && message == "value must be an object"
    case ReplaceEmbedConfig(_, config) => config.None? && message == "value must contain display_config"
    case Move(_, to) =>
      || (to.None? && message == "value must contain to_index")
      || (to.Some? && !(0 <= to.value < |bs|) && message == "to_index out of range")
    case Insert(_) => false
    case Delete(_) => false
    case Unsupported(_) => false
  }

  predicate InsertRefuses(bs: seq<Block>, v: InsertValue, e: PatchError) {
    || (v.index.Some? && !(0 <= v.index.value <= |bs|) && e == PatchError("", "insert index out of range"))
    || (v.index.None? && v.after != "" && Absent(bs, v.after) && e == PatchError(v.after, "after_block_id does not exist"))
  }

  /** Why an operation is refused, the first reason that applies. */
  predicate Refuses(bs: seq<Block>, op: Op, e: PatchError) {
    match op
    case Insert(value) =>
      if value.None? then e == PatchError("", "value must contain block") else InsertRefuses(bs, value.value, e)
    case Unsupported(id) => e == PatchError(id, "unsupported operation")
    case _ =>
      && e.blockId == op.blockId
      && if Absent(bs, op.blockId) then e.message == "target block does not exist" else BadValue(bs, op, e.message)
  }

  lemma FoundFirst(bs: seq<Block>, id: string)
    ensures Has(bs, id) ==> FirstWith(bs, id, Find(bs, id))
    ensures !Has(bs, id) ==> Absent(bs, id)
  {
  }

  lemma MoveMeans(bs: seq<Block>, id: string, to: nat)
    requires Has(bs, id) && to < |bs|
    ensures Relocated(bs, InsertAt(RemoveAt(bs, Find(bs, id)), to, bs[Find(bs, id)]), Find(bs, id), to)
  {
    RemoveUndoesInsert(RemoveAt(bs, Find(bs, id)), to, bs[Find(bs, id)]);
  }

  lemma InsertAccepted(bs: seq<Block>, v: InsertValue)
    requires InsertPosition(bs, v).Ok?
    ensures InsertMeans(bs, v, InsertAt(bs, InsertPosition(bs, v).value, v.block), InsertPosition(bs, v).value)
  {
    FoundFirst(bs, v.after);
  }

  lemma EditAccepted(bs: seq<Block>, op: Op)
    requires IsEdit(op) && Step(bs, op).Ok?
    ensures EditMeans(bs, op, Step(bs, op).value, Find(bs, op.blockId))
  {
    FoundFirst(bs, op.blockId);
  }

  /** What an accepted operation leaves, and where it worked. */
  lemma StepMeans(bs: seq<Block>, op: Op) returns (i: int)
    requires Step(bs, op).Ok?
    ensures Means(bs, op, Step(bs, op).value, i)
  {
    match op
    case Insert(value) =>
      InsertAccepted(bs, value.value);
      i := InsertPosition(bs, value.value).value;
    case Move(id, to) =>
      FoundFirst(bs, id);
      MoveMeans(bs, id, to.value);
      i := Find(bs, id);
    case Delete(id) =>
      FoundFirst(bs, id);
      i := Find(bs, id);
    case _ =>
      EditAccepted(bs, op);
      i := Find(bs, op.blockId);
  }

  /** When an operation is refused and with which error; in all other cases it is accepted. */
  lemma StepRefuses(bs: seq<Block>, op: Op, e: PatchError)
    ensures Step(bs, op) == Err(e) <==> Refuses(bs, op, e)
  {
    match op
    case Insert(value) =>
      if value.Some? {
        FoundFirst(bs, value.value.after);
      }
    case Unsupported(_) =>
    case _ => FoundFirst(bs, op.blockId);
  }

  /** The blocks along a patch: `states[k]` is what operation k finds, and leaves `states[k + 1]`. */
  ghost predicate Along(states: seq<seq<Block>>, ops: seq<Op>, n: nat)
    requires n <= |ops|
  {
    |states| == n + 1 && forall k :: 0 <= k < n ==> Leads(states[k], ops[k], states[k + 1])
  }

  ghost predicate Leads(bs: seq<Block>, op: Op, cs: seq<Block>) {
    exists i :: Means(bs, op, cs, i)
  }

  lemma AlongFurther(bs: seq<Block>, op: Op, rest: seq<seq<Block>>, ops: seq<Op>)
    requires rest != [] && |rest| - 1 <= |ops| && Along(rest, ops, |rest| - 1) && Leads(bs, op, rest[0])
    ensures Along([bs] + rest, [op] + ops, |rest|)
  {
  }

  /** A patch leads through its operations in order, to the end or to the first one refused. */
  lemma {:induction false} PatchRuns(bs: seq<Block>, ops: seq<Op>) returns (states: seq<seq<Block>>)
    ensures 1 <= |states| <= |ops| + 1 && states[0] == bs && Along(states, ops, |states| - 1)
    ensures match Apply(bs, ops)
            case Ok(cs) => |states| == |ops| + 1 && states[|ops|] == cs
            case Err(e) => |states| <= |ops| && Refuses(states[|states| - 1], ops[|states| - 1], e)
    decreases |ops|
  {
    states := [bs];
    if ops != [] {
      match Step(bs, ops[0])
      case Err(e) => StepRefuses(bs, ops[0], e);
      case Ok(next) =>
        var i := StepMeans(bs, ops[0]);
        var rest := PatchRuns(next, ops[1..]);
        AlongFurther(bs, ops[0], rest, ops[1..]);
        assert [ops[0]] + ops[1..] == ops;
        states := [bs] + rest;
    }
  }

  /** The same of a document, whose metadata no patch touches. */
  lemma PatchMeans(d: Document, ops: seq<Op>) returns (states: seq<seq<Block>>)
    ensures 1 <= |states| <= |ops| + 1 && states[0] == d.blocks && Along(states, ops, |states| - 1)
    ensures match ApplyPatch(d, ops)
            case Ok(e) => |states| == |ops| + 1 && states[|ops|] == e.blocks && e.metadata == d.metadata
            case Err(e) => |states| <= |ops| && Refuses(states[|states| - 1], ops[|states| - 1], e)
  {
    states := PatchRuns(d.blocks, ops);
  }

  // ------------------------------------------------------------------------ composition

  /** Applying a concatenated patch is applying its parts in turn. */
  lemma {:induction false} ApplyConcat(bs: seq<Block>, first: seq<Op>, second: seq<Op>)
    ensures Apply(bs, first + second)
            == (match Apply(bs, first) case Err(e) => Err(e) case Ok(mid) => Apply(mid, second))
    decreases |first|
  {
    if first == [] {
      assert first + second == second;
    } else {
      assert (first + second)[1..] == first[1..] + second;
      match Step(bs, first[0])
      case Err(_) =>
      case Ok(next) => ApplyConcat(next, first[1..], second);
    }
  }

  // -------------------------------------------------------------------- looking up again

  /** Characterises Find: the first position that holds the id. */
  lemma {:induction false} FindIs(bs: seq<Block>, id: string, i: nat)
    requires i <= |bs|
    requires i < |bs| ==> bs[i].id == id
    requires forall k :: 0 <= k < i ==> bs[k].id != id
    ensures Find(bs, id) == i
  {
    var f := Find(bs, id);
    if f < i {
      assert false;
    }
  }

  lemma FindAgrees(bs: seq<Block>, cs: seq<Block>, id: string)
    requires |bs| == |cs|
    requires forall k :: 0 <= k < |bs| ==> bs[k].id == cs[k].id
    ensures Find(bs, id) == Find(cs, id)
  {
  }

  // ------------------------------------------------------------------------------- undo

  predicate OccursOnce(bs: seq<Block>, id: string) {
    Has(bs, id) && !Has(bs[Find(bs, id) + 1..], id)
  }

  /**
   A move permutes the blocks, keeps the order of all the others, and is undone by moving
   the block back to its old index when no other block carries its id.
   */
  lemma MoveIsUndoablePermutation(bs: seq<Block>, id: string, to: int)
    requires Step(bs, Move(id, Some(to))).Ok?
    ensures var after := Step(bs, Move(id, Some(to))).value;
            var from := Find(bs, id);
            && |after| == |bs| && multiset(after) == multiset(bs)
            && after[to] == bs[from]
            && RemoveAt(after, to) == RemoveAt(bs, from)
            && (OccursOnce(bs, id) ==> Step(after, Move(id, Some(from))) == Ok(bs))
  {
    var from := Find(bs, id);
    var rest := RemoveAt(bs, from);
    InsertUndoesRemove(bs, from);
    RemoveUndoesInsert(rest, to, bs[from]);
    if OccursOnce(bs, id) {
      MovedBlockIsFound(bs, id, to);
    }
  }

  lemma MovedBlockIsFound(bs: seq<Block>, id: string, to: nat)
    requires OccursOnce(bs, id) && to < |bs|
    ensures Find(InsertAt(RemoveAt(bs, Find(bs, id)), to, bs[Find(bs, id)]), id) == to
  {
  }

  lemma InsertStep(bs: seq<Block>, v: InsertValue)
    requires Step(bs, Insert(Some(v))).Ok?
    ensures InsertPosition(bs, v).Ok?
    ensures Step(bs, Insert(Some(v))).value == InsertAt(bs, InsertPosition(bs, v).value, v.block)
  {
  }

  lemma DeleteStep(bs: seq<Block>, id: string)
    requires Has(bs, id)
    ensures Step(bs, Delete(id)) == Ok(RemoveAt(bs, Find(bs, id)))
  {
  }

  /** Inserting a block whose id is new and deleting it again changes nothing. */
  lemma InsertThenDelete(bs: seq<Block>, v: InsertValue)
    requires Step(bs, Insert(Some(v))).Ok?
    requires !Has(bs, v.block.id)
    ensures Apply(bs, [Insert(Some(v)), Delete(v.block.id)]) == Ok(bs)
  {
    InsertStep(bs, v);
    var i := InsertPosition(bs, v).value;
    var after := InsertAt(bs, i, v.block);
    NewBlockIsFound(bs, i, v.block);
    DeleteStep(after, v.block.id);
    RemoveUndoesInsert(bs, i, v.block);
    TwoSteps(bs, Insert(Some(v)), Delete(v.block.id));
  }

  lemma NewBlockIsFound(bs: seq<Block>, i: nat, b: Block)
    requires i <= |bs| && !Has(bs, b.id)
    ensures Find(InsertAt(bs, i, b), b.id) == i
  {
  }

  function InsertOp(b: Block, i: nat): Op {
    Insert(Some(InsertValue(b, Some(i), "")))
  }

  lemma InsertOpStep(bs: seq<Block>, b: Block, i: nat)
    requires i <= |bs|
    ensures Step(bs, InsertOp(b, i)) == Ok(InsertAt(bs, i, b))
  {
  }

  /** Deleting a block and inserting it again at its old index changes nothing. */
  lemma DeleteThenReinsert(bs: seq<Block>, id: string)
    requires Has(bs, id)
    ensures Apply(bs, [Delete(id), InsertOp(bs[Find(bs, id)], Find(bs, id))]) == Ok(bs)
  {
    var i := Find(bs, id);
    var back := InsertOp(bs[i], i);
    TwoSteps(bs, Delete(id), back);
    DeleteStep(bs, id);
    InsertOpStep(RemoveAt(bs, i), bs[i], i);
    InsertUndoesRemove(bs, i);
  }

  // ----------------------------------------------------------------------- independence

  predicate IsEdit(op: Op) {
    op.ReplaceText? || op.ReplaceAttrs? || op.ReplaceEmbedConfig?
  }

  /** Two edits that do not write the same field of the same block. */
  predicate Independent(a: Op, b: Op)
    requires IsEdit(a) && IsEdit(b)
  {
    || a.blockId != b.blockId
    || (a.ReplaceText? != b.ReplaceText?)
    || (a.ReplaceAttrs? != b.ReplaceAttrs?)
  }

  /** The block an edit writes. */
  function Edited(b: Block, op: Op): Block
    requires IsEdit(op)
  {
    match op
    case ReplaceText(_, text) => if text.Some? then b.(text := text.value) else b
    case ReplaceAttrs(_, attrs) => if attrs.Some? then b.(attrs := attrs.value) else b
    case ReplaceEmbedConfig(_, config) => if config.Some? then WithEmbedConfig(b, config.value) else b
  }

  lemma EditStep(bs: seq<Block>, op: Op)
    requires IsEdit(op) && Step(bs, op).Ok?
    ensures Has(bs, op.blockId)
    ensures Step(bs, op).value == bs[Find(bs, op.blockId) := Edited(bs[Find(bs, op.blockId)], op)]
    ensures forall id :: Find(Step(bs, op).value, id) == Find(bs, id)
  {
    var after := Step(bs, op).value;
    forall id ensures Find(after, id) == Find(bs, id) {
      FindAgrees(bs, after, id);
    }
  }

  /** An edit's acceptance depends on the ids only. */
  lemma EditAcceptance(bs: seq<Block>, cs: seq<Block>, op: Op)
    requires IsEdit(op) && |bs| == |cs|
    requires forall k :: 0 <= k < |bs| ==> bs[k].id == cs[k].id
    ensures Step(bs, op).Ok? <==> Step(cs, op).Ok?
  {
  }

  /** The second of two edits is accepted exactly when it was acceptable on its own. */
  lemma SecondEdit(bs: seq<Block>, a: Op, b: Op)
    requires IsEdit(a) && IsEdit(b) && Step(bs, a).Ok?
    ensures Step(Step(bs, a).value, b).Ok? <==> Step(bs, b).Ok?
    ensures Step(bs, b).Ok? ==>
              && Has(bs, a.blockId) && Has(bs, b.blockId)
              && Step(Step(bs, a).value, b).value
                 == EditedTwice(bs, Find(bs, a.blockId), a, Find(bs, b.blockId), b)
  {
    EditStep(bs, a);
    var mid := Step(bs, a).value;
    EditAcceptance(bs, mid, b);
    if Step(bs, b).Ok? {
      EditStep(mid, b);
    }
  }

  function EditedTwice(bs: seq<Block>, i: nat, a: Op, j: nat, b: Op): seq<Block>
    requires i < |bs| && j < |bs| && IsEdit(a) && IsEdit(b)
  {
    var mid := bs[i := Edited(bs[i], a)];
    mid[j := Edited(mid[j], b)]
  }

  lemma EditedTwiceCommutes(bs: seq<Block>, i: nat, a: Op, j: nat, b: Op)
    requires i < |bs| && j < |bs| && IsEdit(a) && IsEdit(b) && Independent(a, b)
    requires i == j ==> a.blockId == b.blockId
    ensures EditedTwice(bs, i, a, j, b) == EditedTwice(bs, j, b, i, a)
  {
  }

  /** Independent edits commute: same acceptance, same blocks. */
  lemma IndependentEditsCommute(bs: seq<Block>, a: Op, b: Op)
    requires IsEdit(a) && IsEdit(b) && Independent(a, b)
    ensures Apply(bs, [a, b]).Ok? <==> Apply(bs, [b, a]).Ok?
    ensures Apply(bs, [a, b]).Ok? ==> Apply(bs, [a, b]) == Apply(bs, [b, a])
  {
    TwoSteps(bs, a, b);
    TwoSteps(bs, b, a);
    if Step(bs, a).Ok? {
      SecondEdit(bs, a, b);
    }
    if Step(bs, b).Ok? {
      SecondEdit(bs, b, a);
    }
    if Step(bs, a).Ok? && Step(bs, b).Ok? {
      EditedTwiceCommutes(bs, Find(bs, a.blockId), a, Find(bs, b.blockId), b);
    }
  }

  lemma TwoSteps(bs: seq<Block>, a: Op, b: Op)
    ensures Apply(bs, [a, b]) == (match Step(bs, a) case Err(e) => Err(e) case Ok(mid) => Step(mid, b))
  {
    assert [a, b][1..] == [b];
    match Step(bs, a)
    case Err(_) =>
    case Ok(mid) =>
      assert Apply(mid, [b]) == (match Step(mid, b) case Err(e) => Err(e) case Ok(end) => Apply(end, []));
  }

  // ------------------------------------------------------------------------- uniqueness

  ghost function Ids(bs: seq<Block>): set<string> {
    set b | b in bs :: b.id
  }

  predicate InsertsUsedId(bs: seq<Block>, op: Op) {
    op.Insert? && op.value.Some? && Has(bs, op.value.value.block.id)
  }

  lemma HasIsMembership(bs: seq<Block>, id: string)
    ensures Has(bs, id) <==> id in Ids(bs)
  {
  }

  /** An accepted operation keeps block ids distinct exactly when it does not insert a used id. */
  lemma StepKeepsDistinctIds(bs: seq<Block>, op: Op)
    requires DistinctIds(bs) && Step(bs, op).Ok?
    ensures DistinctIds(Step(bs, op).value) <==> !InsertsUsedId(bs, op)
    ensures Ids(Step(bs, op).value) <= Ids(bs) + (if op.Insert? then {op.value.value.block.id} else {})
  {
    var after := Step(bs, op).value;
    match op
    case Insert(value) =>
      var i := InsertPosition(bs, value.value).value;
      var id := value.value.block.id;
      if InsertsUsedId(bs, op) {
        var k := Find(bs, id);
        assert after[i].id == id && after[if k < i then k else k + 1].id == id;
      } else {
        forall j, k | 0 <= j < k < |after| ensures after[j].id != after[k].id {
          assert forall m :: 0 <= m < |bs| ==> bs[m].id != id;
        }
      }
    case Move(id, toIndex) => MoveKeepsDistinctIds(bs, id, toIndex.value);
    case Delete(id) =>
      assert forall b :: b in after ==> b in bs;
    case ReplaceText(_, _) => EditKeepsIds(bs, op);
    case ReplaceAttrs(_, _) => EditKeepsIds(bs, op);
    case ReplaceEmbedConfig(_, _) => EditKeepsIds(bs, op);
  }

  lemma EditKeepsIds(bs: seq<Block>, op: Op)
    requires IsEdit(op) && Step(bs, op).Ok?
    ensures var after := Step(bs, op).value;
            && |after| == |bs| && (forall k :: 0 <= k < |bs| ==> after[k].id == bs[k].id)
            && Ids(after) <= Ids(bs)
  {
  }

  lemma RemovalKeepsDistinctIds(bs: seq<Block>, i: nat)
    requires DistinctIds(bs) && i < |bs|
    ensures DistinctIds(RemoveAt(bs, i))
    ensures forall k :: 0 <= k < |bs| - 1 ==> RemoveAt(bs, i)[k].id != bs[i].id
  {
  }

  lemma InsertionKeepsDistinctIds(bs: seq<Block>, i: nat, b: Block)
    requires DistinctIds(bs) && i <= |bs| && forall k :: 0 <= k < |bs| ==> bs[k].id != b.id
    ensures DistinctIds(InsertAt(bs, i, b))
  {
  }

  lemma MoveKeepsDistinctIds(bs: seq<Block>, id: string, to: nat)
    requires DistinctIds(bs) && Has(bs, id) && to < |bs|
    ensures var after := InsertAt(RemoveAt(bs, Find(bs, id)), to, bs[Find(bs, id)]);
            DistinctIds(after) && Ids(after) <= Ids(bs)
  {
    var from := Find(bs, id);
    RemovalKeepsDistinctIds(bs, from);
    InsertionKeepsDistinctIds(RemoveAt(bs, from), to, bs[from]);
    assert forall b :: b in InsertAt(RemoveAt(bs, from), to, bs[from]) ==> b in bs;
  }

  /** The ids a patch inserts, in order. */
  function InsertedIds(ops: seq<Op>): seq<string> {
    if ops == [] then []
    else (if ops[0].Insert? && ops[0].value.Some? then [ops[0].value.value.block.id] else []) + InsertedIds(ops[1..])
  }

  ghost predicate FreshInserts(bs: seq<Block>, ops: seq<Op>) {
    var ids := InsertedIds(ops);
    && (forall i, j :: 0 <= i < j < |ids| ==> ids[i] != ids[j])
    && (forall i :: 0 <= i < |ids| ==> ids[i] !in Ids(bs))
  }

  /** A patch whose inserted ids are new and distinct keeps block ids distinct. */
  lemma {:induction false} PatchKeepsDistinctIds(bs: seq<Block>, ops: seq<Op>)
    requires DistinctIds(bs) && FreshInserts(bs, ops) && Apply(bs, ops).Ok?
    ensures DistinctIds(Apply(bs, ops).value)
    decreases |ops|
  {
    if ops != [] {
      StepKeepsDistinctIds(bs, ops[0]);
      FreshInsertsStep(bs, ops);
      PatchKeepsDistinctIds(Step(bs, ops[0]).value, ops[1..]);
    }
  }

  lemma InsertedIdsStep(ops: seq<Op>)
    requires ops != []
    ensures InsertedIds(ops)
            == (if ops[0].Insert? && ops[0].value.Some? then [ops[0].value.value.block.id] else []) + InsertedIds(ops[1..])
  {
  }

  /** The ids a patch inserts later are still new and distinct after its first operation. */
  lemma RestIsFresh(bs: seq<Block>, after: seq<Block>, first: seq<string>, rest: seq<string>)
    requires forall i, j :: 0 <= i < j < |first + rest| ==> (first + rest)[i] != (first + rest)[j]
    requires forall i :: 0 <= i < |first + rest| ==> (first + rest)[i] !in Ids(bs)
    requires forall id :: id in Ids(after) ==> id in Ids(bs) || id in first
    ensures forall i, j :: 0 <= i < j < |rest| ==> rest[i] != rest[j]
    ensures forall i :: 0 <= i < |rest| ==> rest[i] !in Ids(after)
  {
    var all, n := first + rest, |first|;
    assert forall i :: 0 <= i < |rest| ==> rest[i] == all[n + i];
    assert forall i :: 0 <= i < n ==> first[i] == all[i];
  }

  lemma FreshInsertsStep(bs: seq<Block>, ops: seq<Op>)
    requires DistinctIds(bs) && ops != [] && FreshInserts(bs, ops) && Step(bs, ops[0]).Ok?
    ensures !InsertsUsedId(bs, ops[0])
    ensures FreshInserts(Step(bs, ops[0]).value, ops[1..])
  {
    StepKeepsDistinctIds(bs, ops[0]);
    InsertedIdsStep(ops);
    var first := if ops[0].Insert? then [ops[0].value.value.block.id] else [];
    if ops[0].Insert? {
      HasIsMembership(bs, first[0]);
      assert (first + InsertedIds(ops[1..]))[0] == first[0];
    }
    RestIsFresh(bs, Step(bs, ops[0]).value, first, InsertedIds(ops[1..]));
  }

  // ------------------------------------------------------------------------- congruence

  /** Both fail alike, or both succeed with blocks the lens cannot tell apart. */
  predicate SameOutcome(l: Lens, x: Result<seq<Block>, PatchError>, y: Result<seq<Block>, PatchError>) {
    match (x, y)
    case (Ok(bs), Ok(cs)) => NormBlocks(l, bs) == NormBlocks(l, cs)
    case (Err(e), Err(f)) => e == f
    case _ => false
  }

  lemma NormBlocksPointwise(l: Lens, bs: seq<Block>, cs: seq<Block>)
    ensures NormBlocks(l, bs) == NormBlocks(l, cs)
            <==> |bs| == |cs| && forall i :: 0 <= i < |bs| ==> NormBlock(l, bs[i]) == NormBlock(l, cs[i])
  {
  }

  /** Blocks the lens cannot tell apart carry the same ids, so lookups agree. */
  lemma LookupCongruence(l: Lens, bs: seq<Block>, cs: seq<Block>, id: string)
    requires NormBlocks(l, bs) == NormBlocks(l, cs)
    ensures Find(bs, id) == Find(cs, id)
  {
  }

  lemma SpliceCongruence(l: Lens, bs: seq<Block>, cs: seq<Block>, i: nat)
    requires NormBlocks(l, bs) == NormBlocks(l, cs)
    ensures i < |bs| ==> NormBlocks(l, RemoveAt(bs, i)) == NormBlocks(l, RemoveAt(cs, i))
    ensures i < |bs| ==> NormBlock(l, bs[i]) == NormBlock(l, cs[i])
    ensures forall b, c :: i <= |bs| && NormBlock(l, b) == NormBlock(l, c)
              ==> NormBlocks(l, InsertAt(bs, i, b)) == NormBlocks(l, InsertAt(cs, i, c))
  {
  }

  lemma EditCongruence(l: Lens, bs: seq<Block>, cs: seq<Block>, op: Op)
    requires NormBlocks(l, bs) == NormBlocks(l, cs) && IsEdit(op)
    ensures SameOutcome(l, Step(bs, op), Step(cs, op))
  {
    LookupCongruence(l, bs, cs, op.blockId);
    NormBlocksPointwise(l, bs, cs);
    if Step(bs, op).Ok? {
      EditStep(bs, op);
      EditStep(cs, op);
      NormBlocksPointwise(l, Step(bs, op).value, Step(cs, op).value);
    }
  }

  lemma InsertCongruence(l: Lens, bs: seq<Block>, cs: seq<Block>, op: Op)
    requires NormBlocks(l, bs) == NormBlocks(l, cs) && op.Insert?
    ensures SameOutcome(l, Step(bs, op), Step(cs, op))
  {
    assert |NormBlocks(l, bs)| == |bs| == |cs|;
    if op.value.Some? {
      LookupCongruence(l, bs, cs, op.value.value.after);
      if InsertPosition(bs, op.value.value).Ok? {
        SpliceCongruence(l, bs, cs, InsertPosition(bs, op.value.value).value);
      }
    }
  }

  lemma MoveCongruence(l: Lens, bs: seq<Block>, cs: seq<Block>, op: Op)
    requires NormBlocks(l, bs) == NormBlocks(l, cs) && op.Move?
    ensures SameOutcome(l, Step(bs, op), Step(cs, op))
  {
    assert |NormBlocks(l, bs)| == |bs| == |cs|;
    LookupCongruence(l, bs, cs, op.blockId);
    if Step(bs, op).Ok? {
      SpliceCongruence(l, bs, cs, Find(bs, op.blockId));
      SpliceCongruence(l, RemoveAt(bs, Find(bs, op.blockId)), RemoveAt(cs, Find(bs, op.blockId)), op.toIndex.value);
    }
  }

  lemma StepCongruence(l: Lens, bs: seq<Block>, cs: seq<Block>, op: Op)
    requires NormBlocks(l, bs) == NormBlocks(l, cs)
    ensures SameOutcome(l, Step(bs, op), Step(cs, op))
  {
    match op
    case Insert(_) => InsertCongruence(l, bs, cs, op);
    case Move(_, _) => MoveCongruence(l, bs, cs, op);
    case Delete(id) =>
      assert |NormBlocks(l, bs)| == |bs| == |cs|;
      LookupCongruence(l, bs, cs, id);
      SpliceCongruence(l, bs, cs, Find(bs, id));
    case Unsupported(_) =>
    case ReplaceText(_, _) => EditCongruence(l, bs, cs, op);
    case ReplaceAttrs(_, _) => EditCongruence(l, bs, cs, op);
    case ReplaceEmbedConfig(_, _) => EditCongruence(l, bs, cs, op);
  }

  lemma {:induction false} ApplyCongruence(l: Lens, bs: seq<Block>, cs: seq<Block>, ops: seq<Op>)
    requires NormBlocks(l, bs) == NormBlocks(l, cs)
    ensures SameOutcome(l, Apply(bs, ops), Apply(cs, ops))
    ensures FailsAt(bs, ops) == FailsAt(cs, ops)
    decreases |ops|
  {
    if ops != [] {
      StepCongruence(l, bs, cs, ops[0]);
      if Step(bs, ops[0]).Ok? {
        ApplyCongruence(l, Step(bs, ops[0]).value, Step(cs, ops[0]).value, ops[1..]);
      }
    }
  }

  /**
   Patching the full document and patching any snapshot of it agree on that snapshot, and
   they fail at the same operation with the same error.
   */
  lemma PatchCommutesWithSnapshot(l: Lens, d: Document, ops: seq<Op>)
    ensures match (ApplyPatch(d, ops), ApplyPatch(Norm(l, d), ops))
            case (Ok(x), Ok(y)) => Norm(l, x) == Norm(l, y)
            case (Err(e), Err(f)) => e == f
            case _ => false
    ensures FailsAt(d.blocks, ops) == FailsAt(Norm(l, d).blocks, ops)
  {
    NormAbsorbs(l, l, d);
    ApplyCongruence(l, d.blocks, Norm(l, d).blocks, ops);
  }
}
