/**
 The patch engine as it runs: blocks sit in a buffer that is cloned once and then shifted,
 spliced and overwritten in place, and each embed is a shared mutable object. The engine is
 proved to compute the fold of `Patches.Apply` without touching any object of its caller.
 */
module PatchBuffer {
  import opened Wrappers
  import opened Sequences
  import opened Documents
  import opened Patches

  /** The embed map of a block, which `replace_embed_config` writes through. */
  class EmbedCell {
    var value: Embed

    constructor (value: Embed)
      ensures this.value == value
    {
      this.value := value;
    }
  }

  /** A block in memory: its value parts (`core.embed` is unused) and its embed object. */
  datatype Slot = Slot(core: Block, cell: EmbedCell?)

  ghost predicate Shows(s: Slot, b: Block)
    reads s.cell
  {
    && s.core == b.(embed := None)
    && (s.cell == null <==> b.embed.None?)
    && (s.cell != null ==> s.cell.value == b.embed.value)
  }

  /** The slots show exactly these blocks, with all their embed objects among `cells`. */
  ghost predicate Represents(slots: seq<Slot>, bs: seq<Block>, cells: set<EmbedCell>)
    reads cells
  {
    && |slots| == |bs|
    && forall i :: 0 <= i < |slots| ==> (slots[i].cell != null ==> slots[i].cell in cells) && Shows(slots[i], bs[i])
  }

  /** No embed object is shared between two slots. */
  ghost predicate Unshared(slots: seq<Slot>) {
    forall i, j :: 0 <= i < j < |slots| && slots[i].cell != null ==> slots[i].cell != slots[j].cell
  }

  /** The slot's embed object is known and none of these slots has it. */
  ghost predicate Separate(slots: seq<Slot>, s: Slot, cells: set<EmbedCell?>) {
    && (s.cell != null ==> s.cell in cells)
    && forall k :: 0 <= k < |slots| && slots[k].cell != null ==> slots[k].cell != s.cell
  }

  lemma PasteSlot(slots: seq<Slot>, bs: seq<Block>, cells: set<EmbedCell>, i: nat, s: Slot, b: Block)
    requires Represents(slots, bs, cells) && Unshared(slots) && i <= |bs|
    requires Separate(slots, s, cells) && Shows(s, b)
    ensures Represents(InsertAt(slots, i, s), InsertAt(bs, i, b), cells) && Unshared(InsertAt(slots, i, s))
  {
  }

  method CloneSlot(original: Slot, ghost b: Block) returns (s: Slot)
    requires Shows(original, b)
    ensures Shows(s, b) && (s.cell != null ==> fresh(s.cell))
  {
    var cell: EmbedCell? := null;
    if original.cell != null {
      cell := new EmbedCell(original.cell.value);
    }
    s := Slot(original.core, cell);
  }

  /** A block slice: a backing array and the length in use. */
  class BlockBuffer {
    var data: array<Slot>
    var len: nat
    ghost var cells: set<EmbedCell>  // the embed objects the blocks may reach

    ghost predicate Valid()
      reads this
    {
      len <= data.Length
    }

    ghost function Slots(): (s: seq<Slot>)
      requires Valid()
      reads this, data
    {
      data[..len]
    }

    /** The buffer shows these blocks and shares no embed object between two of them. */
    ghost predicate Holds(bs: seq<Block>)
      reads this, data, cells
    {
      Valid() && Represents(Slots(), bs, cells) && Unshared(Slots())
    }

    /** `Document.Clone`: a new buffer with a new embed object for each embed. */
    constructor Clone(source: array<Slot>, ghost bs: seq<Block>, ghost shared: set<EmbedCell>)
      requires Represents(source[..], bs, shared)
      ensures Holds(bs) && fresh(data) && fresh(cells)
    {
      data := new Slot[source.Length];
      len := 0;
      cells := {};
      new;
      for i := 0 to source.Length
        invariant Valid() && fresh(data) && fresh(cells) && data.Length == source.Length && len == i
        invariant Represents(data[..i], bs[..i], cells) && Unshared(data[..i])
      {
        assert source[i] == source[..][i];
        var slot := CloneSlot(source[i], bs[i]);
        ghost var before := data[..i];
        assert Separate(before, slot, cells + {slot.cell});
        if slot.cell != null {
          cells := cells + {slot.cell};
        }
        data[i] := slot;
        len := i + 1;
        PasteSlot(before, bs[..i], cells, i, slot, bs[i]);
        assert data[..i + 1] == InsertAt(before, i, slot);
        assert bs[..i + 1] == InsertAt(bs[..i], i, bs[i]);
      }
      assert bs[..|bs|] == bs;
    }

    /** `blockIndex`, with |blocks| for -1. */
    method IndexOf(id: string, ghost bs: seq<Block>) returns (i: nat)
      requires Holds(bs)
      ensures i == Find(bs, id)
    {
      i := 0;
      while i < len
        invariant i <= len
        invariant forall k :: 0 <= k < i ==> bs[k].id != id
      {
        assert data[i] == Slots()[i] && Shows(Slots()[i], bs[i]);
        if data[i].core.id == id {
          break;
        }
        i := i + 1;
      }
      FindIs(bs, id, i);
    }

    /** `append(blocks[:i], blocks[i+1:]...)`: shifts the tail left in place. */
    method RemoveSlot(i: nat)
      requires Valid() && i < len
      modifies this`len, data
      ensures Valid() && data == old(data)
      ensures Slots() == RemoveAt(old(Slots()), i)
    {
      var a, n := data, len;
      ghost var was := Slots();
      var k := i;
      while k + 1 < n
        invariant i <= k < n && n == len <= a.Length && a == data
        invariant forall m :: 0 <= m < k ==> a[m] == was[if m < i then m else m + 1]
        invariant forall m :: k < m < n ==> a[m] == was[m]
      {
        a[k] := a[k + 1];
        k := k + 1;
      }
      len := n - 1;
    }

    /** `slices.Insert`: shifts the tail right, into a larger array when the old one is full. */
    method InsertSlot(i: nat, s: Slot)
      requires Valid() && i <= len
      modifies this`data, this`len, data
      ensures Valid() && (data == old(data) || fresh(data))
      ensures Slots() == InsertAt(old(Slots()), i, s)
    {
      if len == data.Length {
        Grow();
      }
      var a, n := data, len;
      ghost var was := Slots();
      var k := n;
      while k > i
        invariant i <= k <= n == len < a.Length && a == data
        invariant a == old(data) || fresh(a)
        invariant forall m :: 0 <= m < k ==> a[m] == was[m]
        invariant forall m :: k < m <= n ==> a[m] == was[m - 1]
      {
        a[k] := a[k - 1];
        k := k - 1;
      }
      a[i] := s;
      len := n + 1;
    }

    /** The slice the caller receives. */
    method Finish() returns (blocks: array<Slot>)
      requires Valid()
      ensures fresh(blocks) && blocks[..] == Slots()
    {
      blocks := new Slot[len];
      for k := 0 to len
        invariant forall m :: 0 <= m < k ==> blocks[m] == data[m]
      {
        blocks[k] := data[k];
      }
    }

    method Grow()
      requires Valid() && len == data.Length
      modifies this`data
      ensures Valid() && fresh(data) && len < data.Length
      ensures Slots() == old(Slots())
    {
      var a, n := data, len;
      var bigger := new Slot[2 * n + 1];
      for k := 0 to n
        invariant forall m :: 0 <= m < k ==> bigger[m] == a[m]
      {
        bigger[k] := a[k];
      }
      data := bigger;
    }
  }

  /** Everything the buffer reaches now was reachable before or is new. */
  twostate predicate GrowsFresh(buffer: BlockBuffer)
    reads buffer
  {
    && (buffer.data == old(buffer.data) || fresh(buffer.data))
    && fresh(buffer.cells - old(buffer.cells))
  }

  method OverwriteCore(buffer: BlockBuffer, i: nat, core: Block, ghost bs: seq<Block>)
    requires buffer.Holds(bs) && i < |bs| && core.embed.None?
    modifies buffer.data
    ensures buffer.Holds(bs[i := core.(embed := bs[i].embed)])
  {
    ghost var was := buffer.Slots();
    assert Shows(was[i], bs[i]);
    buffer.data[i] := Slot(core, buffer.data[i].cell);
    assert buffer.Slots() == was[i := Slot(core, was[i].cell)];
  }

  /** Writes through the embed object, creating it when the block has none. */
  method OverwriteEmbedConfig(buffer: BlockBuffer, i: nat, config: JsonMap, ghost bs: seq<Block>)
    requires buffer.Holds(bs) && i < |bs|
    modifies buffer.data, buffer.cells, buffer`cells
    ensures buffer.Holds(bs[i := WithEmbedConfig(bs[i], config)]) && GrowsFresh(buffer)
  {
    ghost var was := buffer.Slots();
    var cell := buffer.data[i].cell;
    assert Shows(was[i], bs[i]);
    assert forall k :: 0 <= k < |was| ==> Shows(was[k], bs[k]);
    if cell == null {
      cell := new EmbedCell(Embed("", "", map[], "", map[], []));
      buffer.data[i] := Slot(buffer.data[i].core, cell);
      buffer.cells := buffer.cells + {cell};
    }
    cell.value := cell.value.(displayConfig := config);
    ghost var now := buffer.Slots();
    assert now == was[i := Slot(was[i].core, cell)];
    forall k | 0 <= k < |now| ensures Shows(now[k], bs[i := WithEmbedConfig(bs[i], config)][k]) {
      if k != i {
        assert now[k].cell == null || now[k].cell != cell;
      }
    }
  }

  method InsertBlock(buffer: BlockBuffer, i: nat, b: Block, ghost bs: seq<Block>)
    requires buffer.Holds(bs) && i <= |bs|
    modifies buffer, buffer.data
    ensures buffer.Holds(InsertAt(bs, i, b)) && GrowsFresh(buffer)
  {
    var cell: EmbedCell? := null;
    if b.embed.Some? {
      cell := new EmbedCell(b.embed.value);
      buffer.cells := buffer.cells + {cell};
    }
    buffer.InsertSlot(i, Slot(b.(embed := None), cell));
  }

  method DeleteBlock(buffer: BlockBuffer, i: nat, ghost bs: seq<Block>)
    requires buffer.Holds(bs) && i < |bs|
    modifies buffer`len, buffer.data
    ensures buffer.Holds(RemoveAt(bs, i)) && buffer.data == old(buffer.data)
  {
    buffer.RemoveSlot(i);
  }

  /** Cuts the slot out and inserts it again: the embed object travels with it. */
  method MoveBlock(buffer: BlockBuffer, i: nat, to: nat, ghost bs: seq<Block>)
    requires buffer.Holds(bs) && i < |bs| && to < |bs|
    modifies buffer`data, buffer`len, buffer.data
    ensures buffer.Holds(InsertAt(RemoveAt(bs, i), to, bs[i])) && GrowsFresh(buffer)
  {
    CutSlot(buffer.Slots(), bs, buffer.cells, i);
    ghost var rest := RemoveAt(buffer.Slots(), i);
    var moved := buffer.data[i];
    buffer.RemoveSlot(i);
    buffer.InsertSlot(to, moved);
    PasteSlot(rest, RemoveAt(bs, i), buffer.cells, to, moved, bs[i]);
  }

  /** What remains after cutting a slot out, and the slot itself. */
  lemma CutSlot(slots: seq<Slot>, bs: seq<Block>, cells: set<EmbedCell>, i: nat)
    requires Represents(slots, bs, cells) && Unshared(slots) && i < |bs|
    ensures Represents(RemoveAt(slots, i), RemoveAt(bs, i), cells) && Unshared(RemoveAt(slots, i))
    ensures Separate(RemoveAt(slots, i), slots[i], cells) && Shows(slots[i], bs[i])
  {
  }

  /** One operation of the loop in `ApplyPatch`. */
  method Perform(buffer: BlockBuffer, op: Op, ghost bs: seq<Block>) returns (error: Option<PatchError>)
    requires buffer.Holds(bs)
    modifies buffer, buffer.data, buffer.cells
    ensures GrowsFresh(buffer)
    ensures match Step(bs, op)
            case Err(e) => error == Some(e)
            case Ok(next) => error == None && buffer.Holds(next)
  {
    if op.Insert? {
      error := PerformInsert(buffer, op.value, bs);
      return;
    }
    if op.Unsupported? {
      return Some(PatchError(op.blockId, "unsupported operation"));
    }
    var i := buffer.IndexOf(op.blockId, bs);
    if i >= buffer.len {
      return Some(PatchError(op.blockId, NO_TARGET));
    }
    assert Shows(buffer.Slots()[i], bs[i]);
    match op {
      case ReplaceText(id, text) =>
        if text.None? {
          return Some(PatchError(id, "value must be a string"));
        }
        OverwriteCore(buffer, i, buffer.data[i].core.(text := text.value), bs);
      case ReplaceAttrs(id, attrs) =>
        if attrs.None? {
          return Some(PatchError(id, "value must be an object"));
        }
        OverwriteCore(buffer, i, buffer.data[i].core.(attrs := attrs.value), bs);
      case ReplaceEmbedConfig(id, config) =>
        if config.None? {
          return Some(PatchError(id, "value must contain display_config"));
        }
        OverwriteEmbedConfig(buffer, i, config.value, bs);
      case Move(id, toIndex) =>
        if toIndex.None? {
          return Some(PatchError(id, "value must contain to_index"));
        }
        if toIndex.value < 0 || toIndex.value >= buffer.len {
          return Some(PatchError(id, "to_index out of range"));
        }
        MoveBlock(buffer, i, toIndex.value, bs);
      case Delete(_) =>
        DeleteBlock(buffer, i, bs);
    }
    return None;
  }

  method PerformInsert(buffer: BlockBuffer, value: Option<InsertValue>, ghost bs: seq<Block>)
    returns (error: Option<PatchError>)
    requires buffer.Holds(bs)
    modifies buffer, buffer.data
    ensures GrowsFresh(buffer)
    ensures match Step(bs, Insert(value))
            case Err(e) => error == Some(e)
            case Ok(next) => error == None && buffer.Holds(next)
  {
    if value.None? {
      return Some(PatchError("", "value must contain block"));
    }
    var insertAt: int := buffer.len;
    if value.value.index.Some? {
      insertAt := value.value.index.value;
    } else if value.value.after != "" {
      var position := buffer.IndexOf(value.value.after, bs);
      if position >= buffer.len {
        return Some(PatchError(value.value.after, "after_block_id does not exist"));
      }
      insertAt := position + 1;
    }
    if insertAt < 0 || insertAt > buffer.len {
      return Some(PatchError("", "insert index out of range"));
    }
    InsertBlock(buffer, insertAt, value.value.block, bs);
    return None;
  }

  /**
   `ApplyPatch`: for the blocks `bs` that the source array shows, returns a new array that
   shows `Apply(bs, ops)`, or its error. There is no modifies clause: the source array and
   every embed object it reaches are unchanged, whether the patch is accepted or not, and
   the result shares no object with them.
   */
  method ApplyInPlace(source: array<Slot>, ops: seq<Op>, ghost bs: seq<Block>, ghost shared: set<EmbedCell>)
    returns (r: Result<array<Slot>, PatchError>, ghost own: set<EmbedCell>)
    requires Represents(source[..], bs, shared)
    ensures r.Ok? <==> Apply(bs, ops).Ok?
    ensures r.Err? ==> r.error == Apply(bs, ops).error
    ensures r.Ok? ==> fresh(r.value) && fresh(own) && Represents(r.value[..], Apply(bs, ops).value, own)
    ensures r.Ok? ==> Unshared(r.value[..])
  {
    var next := new BlockBuffer.Clone(source, bs, shared);
    own := {};
    ghost var current := bs;
    for i := 0 to |ops|
      invariant next.Holds(current) && fresh(next) && fresh(next.data) && fresh(next.cells)
      invariant Apply(bs, ops) == Apply(current, ops[i..])
    {
      assert ops[i..][0] == ops[i] && ops[i..][1..] == ops[i + 1..];
      var error := Perform(next, ops[i], current);
      if error.Some? {
        return Err(error.value), own;
      }
      current := Step(current, ops[i]).value;
    }
    var blocks := next.Finish();
    return Ok(blocks), next.cells;
  }
}
