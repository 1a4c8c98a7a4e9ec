/** Text built by appending one block per item, numbered from 1: the shape of every
    `for i, x in enumerate(xs): text += f"... {i+1} ... {x} ..."` loop in the answering variants. */
module Numbered {
  import opened PyStr

  /** The blocks of `items` in order, block `i + 1` for item `i`. */
  function Blocks<T>(block: (nat, T) -> string, items: seq<T>): string
    decreases |items|
  {
    if items == [] then ""
    else Blocks(block, items[..|items| - 1]) + block(|items|, items[|items| - 1])
  }

  /** The text after the first `j` items is a prefix of the whole. */
  lemma {:induction false} BlocksPrefix<T>(block: (nat, T) -> string, items: seq<T>, j: nat)
    requires j <= |items|
    ensures Blocks(block, items[..j]) <= Blocks(block, items)
    decreases |items| - j
  {
    if j == |items| {
      assert items[..j] == items;
    } else {
      BlocksPrefix(block, items, j + 1);
      assert items[..j + 1][..j] == items[..j];
    }
  }

  /** Item `i`'s block, numbered `i + 1`, follows the blocks of the items before it. */
  lemma BlockAt<T>(block: (nat, T) -> string, items: seq<T>, i: nat)
    requires i < |items|
    ensures OccursAt(Blocks(block, items), block(i + 1, items[i]), |Blocks(block, items[..i])|)
  {
    BlocksPrefix(block, items, i + 1);
    assert items[..i + 1][..i] == items[..i];
    var before, b := Blocks(block, items[..i]), block(i + 1, items[i]);
    assert Blocks(block, items[..i + 1]) == before + b;
    assert (before + b)[|before|..|before| + |b|] == b;
  }

  /** The same inside a text that puts `head` before the blocks and `tail` after them. */
  lemma BlockWithin<T>(head: string, block: (nat, T) -> string, items: seq<T>, tail: string, i: nat)
    requires i < |items|
    ensures OccursAt(head + Blocks(block, items) + tail, block(i + 1, items[i]),
                     |head| + |Blocks(block, items[..i])|)
  {
    BlockAt(block, items, i);
    var blocks, at, b := Blocks(block, items), |Blocks(block, items[..i])|, block(i + 1, items[i]);
    assert (head + blocks + tail)[|head| + at..|head| + at + |b|] == blocks[at..at + |b|];
  }

  /** `text` shows the blocks from index `start` on: item `i`'s block, numbered `i + 1`,
      right after the blocks of the items before it. */
  predicate BlocksAt<T>(text: string, start: nat, block: (nat, T) -> string, items: seq<T>) {
    forall i :: 0 <= i < |items| ==>
      OccursAt(text, block(i + 1, items[i]), start + |Blocks(block, items[..i])|)
  }

  /** A text that frames the blocks between `head` and `tail` starts with `head`, shows every
      item's block after the head and the blocks before it, and ends with `tail`. */
  lemma Framed<T>(head: string, block: (nat, T) -> string, items: seq<T>, tail: string)
    ensures head <= head + Blocks(block, items) + tail
    ensures BlocksAt(head + Blocks(block, items) + tail, |head|, block, items)
    ensures OccursAt(head + Blocks(block, items) + tail, tail, |head + Blocks(block, items) + tail| - |tail|)
  {
    FramedBlocks(head, block, items, tail);
    FramedEnds(head, Blocks(block, items), tail);
  }

  lemma FramedBlocks<T>(head: string, block: (nat, T) -> string, items: seq<T>, tail: string)
    ensures BlocksAt(head + Blocks(block, items) + tail, |head|, block, items)
  {
    forall i | 0 <= i < |items|
      ensures OccursAt(head + Blocks(block, items) + tail, block(i + 1, items[i]), |head| + |Blocks(block, items[..i])|)
    {
      BlockWithin(head, block, items, tail, i);
    }
  }

  lemma FramedEnds(head: string, middle: string, tail: string)
    ensures head <= head + middle + tail
    ensures OccursAt(head + middle + tail, tail, |head + middle + tail| - |tail|)
  {
    var text := head + middle + tail;
    assert text[..|head|] == head;
    assert text[|text| - |tail|..] == tail;
  }

  /** The blocks come in the order of the items: block `i + 1` ends before block `j + 1` starts. */
  lemma BlocksInOrder<T>(block: (nat, T) -> string, items: seq<T>, i: nat, j: nat)
    requires i < j < |items|
    ensures |Blocks(block, items[..i])| + |block(i + 1, items[i])| <= |Blocks(block, items[..j])|
  {
    BlocksPrefix(block, items[..j], i + 1);
    assert items[..j][..i + 1] == items[..i + 1];
    assert items[..i + 1][..i] == items[..i];
  }

  /** The loop: start from nothing and append each item's block. */
  method BuildBlocks<T>(block: (nat, T) -> string, items: seq<T>) returns (text: string)
    ensures text == Blocks(block, items)
  {
    text := "";
    var i := 0;
    while i < |items|
      invariant i <= |items|
      invariant text == Blocks(block, items[..i])
    {
      assert items[..i + 1][..i] == items[..i];
      text := text + block(i + 1, items[i]);
      i := i + 1;
    }
    assert items[..|items|] == items;
  }
}
