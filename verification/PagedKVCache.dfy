/** Block-based storage for the key/value state of every active request
    (cache/paged_kv_cache.py). One cell stands for the keys and values of one token
    position, over all layers and heads. */
module PagedCache {
  import opened Heapq

  datatype Cell = Cell(key: real, value: real)

  const ZERO := Cell(0.0, 0.0)

  type Block = seq<Cell>

  /** A new block of `n` zero cells. */
  function ZeroCells(n: nat): (r: seq<Cell>)
    ensures |r| == n && forall i :: 0 <= i < n ==> r[i] == ZERO
  {
    seq(n, _ => ZERO)
  }

  function Max(a: int, b: int): int {
    if a < b then b else a
  }

  function Min(a: int, b: int): int {
    if a < b then a else b
  }

  // ---------------------------------------------------------------- index arithmetic

  lemma DivModStep(p: nat, bs: nat)
    requires bs > 0
    ensures p == (p / bs) * bs + p % bs && 0 <= p % bs < bs
  {
  }

  lemma MulMonotone(a: int, b: int, c: nat)
    ensures a <= b ==> a * c <= b * c
  {
  }

  lemma DivBelow(p: nat, n: nat, bs: nat)
    requires bs > 0 && p < n * bs
    ensures p / bs < n
  {
    DivModStep(p, bs);
    MulMonotone(n, p / bs, bs);
  }

  lemma DivUnique(p: nat, q: nat, r: nat, bs: nat)
    requires bs > 0 && p == q * bs + r && r < bs
    ensures p / bs == q && p % bs == r
  {
    DivModStep(p, bs);
    MulMonotone(q + 1, p / bs, bs);
    MulMonotone(p / bs + 1, q, bs);
    assert (q + 1) * bs == q * bs + bs;
    assert (p / bs + 1) * bs == p / bs * bs + bs;
  }

  /** Where position `p` of a table is stored: in which of its blocks, and at which cell of it. */
  function BlockOf(p: nat, bs: nat): nat
    requires bs > 0
  {
    p / bs
  }

  function OffsetOf(p: nat, bs: nat): (r: nat)
    requires bs > 0
    ensures r < bs
  {
    p % bs
  }

  /** Ceiling division by negating twice, as the source writes it (`/` rounds down for b > 0). */
  function CeilDiv(a: nat, b: nat): (r: nat)
    requires b > 0
    ensures r * b >= a && (r > 0 ==> (r - 1) * b < a)
  {
    var n: int := -(a as int);
    var q: int := -(n / b);
    assert n == (n / b) * b + n % b;
    assert (q - 1) * b == q * b - b;
    assert q >= 0 by {
      MulMonotone(1, n / b, b);
    }
    q
  }

  lemma CeilDivUnique(n: nat, p: nat, bs: nat)
    requires bs > 0 && p <= n * bs && (n > 0 ==> (n - 1) * bs < p)
    ensures CeilDiv(p, bs) == n
  {
    var m: int := CeilDiv(p, bs);
    MulMonotone(m + 1, n, bs);
    MulMonotone(n + 1, m, bs);
    MulMonotone(m, n - 1, bs);
    MulMonotone(n, m - 1, bs);
  }

  // ---------------------------------------------------------------- values in the pool

  /** Every listed block exists in the pool and has the pool's block size. */
  ghost predicate Readable(pool: seq<Block>, ids: seq<nat>, bs: nat) {
    && bs > 0
    && (forall b :: 0 <= b < |pool| ==> |pool[b]| == bs)
    && (forall k :: 0 <= k < |ids| ==> ids[k] < |pool|)
  }

  /** The first `n` cells stored in the listed blocks, in order. */
  ghost function Gather(pool: seq<Block>, ids: seq<nat>, bs: nat, n: nat): (r: seq<Cell>)
    requires Readable(pool, ids, bs) && n <= |ids| * bs
    ensures |r| == n
  {
    seq(n, p requires 0 <= p < n => DivBelow(p, |ids|, bs); pool[ids[BlockOf(p, bs)]][OffsetOf(p, bs)])
  }

  lemma GatherAt(pool: seq<Block>, ids: seq<nat>, bs: nat, n: nat, p: nat)
    requires Readable(pool, ids, bs) && n <= |ids| * bs && p < n
    ensures BlockOf(p, bs) < |ids| && Gather(pool, ids, bs, n)[p] == pool[ids[BlockOf(p, bs)]][OffsetOf(p, bs)]
  {
    DivBelow(p, |ids|, bs);
  }

  /** What is gathered depends on the listed blocks only. */
  lemma GatherFrame(pool: seq<Block>, pool': seq<Block>, ids: seq<nat>, ids': seq<nat>, bs: nat, n: nat)
    requires Readable(pool, ids, bs) && Readable(pool', ids', bs)
    requires n <= |ids| * bs && n <= |ids'| * bs
    requires forall k :: 0 <= k < |ids| && k < |ids'| ==> ids[k] == ids'[k]
    requires forall k :: 0 <= k < |ids| && k < |ids'| ==> pool[ids[k]] == pool'[ids[k]]
    ensures Gather(pool, ids, bs, n) == Gather(pool', ids', bs, n)
  {
    forall p | 0 <= p < n
      ensures Gather(pool, ids, bs, n)[p] == Gather(pool', ids', bs, n)[p]
    {
      GatherAt(pool, ids, bs, n, p);
      GatherAt(pool', ids', bs, n, p);
    }
  }

  /** Overwrites `|src|` cells of block `b`, starting at `offset`. */
  function WriteCells(pool: seq<Block>, b: nat, offset: nat, src: seq<Cell>): (r: seq<Block>)
    requires b < |pool| && offset + |src| <= |pool[b]|
    ensures |r| == |pool| && |r[b]| == |pool[b]|
    ensures forall c :: 0 <= c < |pool| && c != b ==> r[c] == pool[c]
    ensures forall i :: 0 <= i < |pool[b]| ==>
              r[b][i] == if offset <= i < offset + |src| then src[i - offset] else pool[b][i]
  {
    pool[b := pool[b][..offset] + src + pool[b][offset + |src|..]]
  }

  /** Where position `p` of a table lands, relative to a write of `take` cells at `pos`. */
  lemma WriteOffsets(p: nat, pos: nat, take: nat, bs: nat)
    requires bs > 0 && OffsetOf(pos, bs) + take <= bs
    ensures p < pos && BlockOf(p, bs) == BlockOf(pos, bs) ==> OffsetOf(p, bs) < OffsetOf(pos, bs)
    ensures pos <= p < pos + take ==>
              BlockOf(p, bs) == BlockOf(pos, bs) && OffsetOf(p, bs) == OffsetOf(pos, bs) + (p - pos)
  {
    DivModStep(p, bs);
    DivModStep(pos, bs);
    if pos <= p < pos + take {
      DivUnique(p, pos / bs, pos % bs + (p - pos), bs);
    }
  }

  /** One cell after a write: `(k, o)` is where it is stored, `(at, offset)` where the write starts. */
  lemma CellAfterWrite(pool: seq<Block>, ids: seq<nat>, bs: nat, at: nat, offset: nat, src: seq<Cell>, k: nat, o: nat)
    requires Readable(pool, ids, bs) && Distinct(ids)
    requires at < |ids| && offset + |src| <= bs && k < |ids| && o < bs
    ensures WriteCells(pool, ids[at], offset, src)[ids[k]][o]
            == if k == at && offset <= o < offset + |src| then src[o - offset] else pool[ids[k]][o]
  {
    assert k != at ==> ids[k] != ids[at];
  }

  /** Writing at position `pos` extends what the table gathers by exactly `src`. */
  lemma GatherWrite(pool: seq<Block>, ids: seq<nat>, bs: nat, pos: nat, src: seq<Cell>, pool': seq<Block>)
    requires Readable(pool, ids, bs) && Distinct(ids)
    requires pos + |src| <= |ids| * bs && BlockOf(pos, bs) < |ids| && OffsetOf(pos, bs) + |src| <= bs
    requires pool' == WriteCells(pool, ids[BlockOf(pos, bs)], OffsetOf(pos, bs), src)
    ensures Readable(pool', ids, bs)
    ensures Gather(pool', ids, bs, pos + |src|) == Gather(pool, ids, bs, pos) + src
  {
    var n := pos + |src|;
    forall p | 0 <= p < n
      ensures Gather(pool', ids, bs, n)[p] == if p < pos then Gather(pool, ids, bs, pos)[p] else src[p - pos]
    {
      GatherWriteAt(pool, ids, bs, pos, src, pool', p);
    }
  }

  lemma GatherWriteAt(pool: seq<Block>, ids: seq<nat>, bs: nat, pos: nat, src: seq<Cell>, pool': seq<Block>, p: nat)
    requires Readable(pool, ids, bs) && Distinct(ids)
    requires pos + |src| <= |ids| * bs && BlockOf(pos, bs) < |ids| && OffsetOf(pos, bs) + |src| <= bs
    requires pool' == WriteCells(pool, ids[BlockOf(pos, bs)], OffsetOf(pos, bs), src)
    requires p < pos + |src|
    ensures Readable(pool', ids, bs)
    ensures Gather(pool', ids, bs, pos + |src|)[p] == if p < pos then Gather(pool, ids, bs, pos)[p] else src[p - pos]
  {
    hide Gather, WriteCells, BlockOf, OffsetOf;
    GatherAt(pool', ids, bs, pos + |src|, p);
    WriteOffsets(p, pos, |src|, bs);
    CellAfterWrite(pool, ids, bs, BlockOf(pos, bs), OffsetOf(pos, bs), src, BlockOf(p, bs), OffsetOf(p, bs));
    if p < pos {
      GatherAt(pool, ids, bs, pos, p);
    }
  }

  /** One whole block more. */
  lemma GatherBlock(pool: seq<Block>, ids: seq<nat>, bs: nat, b: nat, n: nat)
    requires Readable(pool, ids, bs) && b < |ids| && n <= bs && b * bs + n <= |ids| * bs && b * bs <= |ids| * bs
    ensures Gather(pool, ids, bs, b * bs + n) == Gather(pool, ids, bs, b * bs) + pool[ids[b]][..n]
  {
    var lhs, rhs := Gather(pool, ids, bs, b * bs + n), Gather(pool, ids, bs, b * bs) + pool[ids[b]][..n];
    forall p | 0 <= p < b * bs + n
      ensures lhs[p] == rhs[p]
    {
      GatherAt(pool, ids, bs, b * bs + n, p);
      if p < b * bs {
        GatherAt(pool, ids, bs, b * bs, p);
      } else {
        DivUnique(p, b, p - b * bs, bs);
      }
    }
  }

  function RowLengths<T>(rows: seq<seq<T>>): (r: seq<nat>)
    ensures |r| == |rows| && forall i :: 0 <= i < |rows| ==> r[i] == |rows[i]|
  {
    seq(|rows|, i requires 0 <= i < |rows| => |rows[i]|)
  }

  /** Every row left-padded with zero cells to the longest one. */
  function PadAll(rows: seq<seq<Cell>>): (r: seq<seq<Cell>>)
    ensures |r| == |rows|
    ensures forall i :: 0 <= i < |rows| ==>
              |rows[i]| <= MaxLength(RowLengths(rows)) && r[i] == PadLeft(rows[i], MaxLength(RowLengths(rows)))
  {
    var width := MaxLength(RowLengths(rows));
    assert forall i :: 0 <= i < |rows| ==> |rows[i]| == RowLengths(rows)[i] <= width;
    seq(|rows|, i requires 0 <= i < |rows| => PadLeft(rows[i], width))
  }

  /** How many whole blocks `n` cells fill, and how many cells are left for one more. */
  lemma RowSplit(n: nat, count: nat, bs: nat)
    requires bs > 0 && n <= count * bs
    ensures n == n / bs * bs + n % bs && n % bs < bs
    ensures n / bs <= count && (n % bs > 0 ==> n / bs < count)
  {
    DivModStep(n, bs);
    MulMonotone(count + 1, n / bs, bs);
    MulMonotone(count, n / bs, bs);
    assert (count + 1) * bs == count * bs + bs;
  }

  /** `row`, extended on the left with zero cells to the given width. */
  function PadLeft(row: seq<Cell>, width: nat): (r: seq<Cell>)
    requires |row| <= width
    ensures |r| == width
  {
    ZeroCells(width - |row|) + row
  }

  method PadRow(row: seq<Cell>, width: nat) returns (r: seq<Cell>)
    requires |row| <= width
    ensures r == PadLeft(row, width)
  {
    r := row;
    if |row| < width {
      r := ZeroCells(width - |row|) + row;
    }
  }

  /** The longest of several lengths; 0 when there is none. */
  function MaxLength(lengths: seq<nat>): (r: nat)
    ensures forall i :: 0 <= i < |lengths| ==> lengths[i] <= r
    ensures lengths != [] ==> r in lengths
    ensures lengths == [] ==> r == 0
  {
    if lengths == [] then 0
    else
      var rest := MaxLength(lengths[1..]);
      assert forall i :: 0 < i < |lengths| ==> lengths[i] == lengths[1..][i - 1];
      if |lengths| == 1 || lengths[0] >= rest then lengths[0] else rest
  }

  // ---------------------------------------------------------------- counting free ids

  /** Distinct numbers in [lo, hi) number at most hi - lo. */
  lemma {:induction false} Pigeonhole(s: seq<nat>, lo: nat, hi: nat)
    requires Distinct(s) && lo <= hi && forall x :: x in s ==> lo <= x < hi
    ensures |s| <= hi - lo
    decreases hi - lo
  {
    if s != [] {
      if hi - 1 in s {
        var k :| 0 <= k < |s| && s[k] == hi - 1;
        var rest := s[..k] + s[k + 1..];
        forall x | x in rest ensures lo <= x < hi - 1 {
          var i :| 0 <= i < |rest| && rest[i] == x;
          var j := if i < k then i else i + 1;
          assert x == s[j] && s[j] in s && s[j] != s[k];
        }
        Pigeonhole(rest, lo, hi - 1);
      } else {
        assert s[0] in s;
        Pigeonhole(s, lo, hi - 1);
      }
    }
  }

  /** A list that holds every number below `n` is at least that long. */
  lemma {:induction false} CoversAll(s: seq<nat>, n: nat)
    requires forall b :: 0 <= b < n ==> b in s
    ensures |s| >= n
  {
    if n > 0 {
      assert n - 1 in s;
      var k :| 0 <= k < |s| && s[k] == n - 1;
      var rest := s[..k] + s[k + 1..];
      forall b | 0 <= b < n - 1 ensures b in rest {
        assert b in s;
        var i :| 0 <= i < |s| && s[i] == b;
        assert rest[if i < k then i else i - 1] == b;
      }
      CoversAll(rest, n - 1);
    }
  }

  /** The members of `s` below `n`, in order. */
  function Below(s: seq<nat>, n: nat): (r: seq<nat>)
    ensures forall x :: x in r <==> x in s && x < n
  {
    if s == [] then []
    else if s[0] < n then [s[0]] + Below(s[1..], n)
    else Below(s[1..], n)
  }

  ghost function AtLeast(s: seq<nat>, n: nat): (r: seq<nat>)
    ensures forall x :: x in r <==> x in s && x >= n
    ensures |r| + |Below(s, n)| == |s|
  {
    if s == [] then []
    else if s[0] >= n then [s[0]] + AtLeast(s[1..], n)
    else AtLeast(s[1..], n)
  }

  lemma PrependDistinct(x: nat, s: seq<nat>)
    requires x !in s && Distinct(s)
    ensures Distinct([x] + s)
  {
  }

  lemma {:induction false} FilterDistinct(s: seq<nat>, n: nat)
    requires Distinct(s)
    ensures Distinct(Below(s, n)) && Distinct(AtLeast(s, n))
  {
    if s != [] {
      FilterDistinct(s[1..], n);
      assert s[0] !in s[1..];
      if s[0] < n {
        PrependDistinct(s[0], Below(s[1..], n));
      } else {
        PrependDistinct(s[0], AtLeast(s[1..], n));
      }
    }
  }

  function Flatten(lists: seq<seq<nat>>): seq<nat> {
    if lists == [] then [] else Flatten(lists[..|lists| - 1]) + lists[|lists| - 1]
  }

  lemma {:induction false} FlattenMembers(lists: seq<seq<nat>>, b: nat)
    ensures b in Flatten(lists) <==> exists i :: 0 <= i < |lists| && b in lists[i]
  {
    if lists != [] {
      var n := |lists| - 1;
      FlattenMembers(lists[..n], b);
      assert forall i :: 0 <= i < n ==> lists[..n][i] == lists[i];
    }
  }

  /** Distinct lists that share nothing are distinct when put together. */
  lemma {:induction false} FlattenDistinct(lists: seq<seq<nat>>)
    requires forall i :: 0 <= i < |lists| ==> Distinct(lists[i])
    requires forall i, j, b :: 0 <= i < j < |lists| && b in lists[i] ==> b !in lists[j]
    ensures Distinct(Flatten(lists))
  {
    if lists != [] {
      var n := |lists| - 1;
      var (front, last) := (Flatten(lists[..n]), lists[n]);
      FlattenDistinct(lists[..n]);
      forall b | b in front ensures b !in last {
        FlattenMembers(lists[..n], b);
      }
      AppendDistinct(front, last);
    }
  }

  lemma AppendDistinct(a: seq<nat>, b: seq<nat>)
    requires Distinct(a) && Distinct(b) && forall x :: x in a ==> x !in b
    ensures Distinct(a + b)
  {
    forall i, j | 0 <= i < j < |a + b| ensures (a + b)[i] != (a + b)[j] {
      if i < |a| <= j {
        assert a[i] in a && (a + b)[j] == b[j - |a|] && b[j - |a|] in b;
      }
    }
  }

  /** The key under which block ids sit in the free heap. */
  function BlockKey(id: nat): Key {
    (0.0, id)
  }

  lemma PopDistinct(h: seq<nat>, x: nat, r: seq<nat>)
    requires Distinct(h) && multiset(h) == multiset(r) + multiset{x}
    ensures Distinct(r) && x !in r && x in h
    ensures forall y :: y in r <==> y in h && y != x
  {
    DistinctCounts(h);
    DistinctCounts(r);
    assert forall y :: multiset(r)[y] <= multiset(h)[y];
    assert multiset(h)[x] == multiset(r)[x] + 1;
    assert forall y :: y in r <==> y in multiset(r);
    assert forall y :: y in h <==> y in multiset(h);
  }

  lemma PushDistinct(h: seq<nat>, x: nat, r: seq<nat>)
    requires Distinct(h) && x !in h && multiset(r) == multiset(h) + multiset{x}
    ensures Distinct(r) && forall y :: y in r <==> y in h || y == x
  {
    DistinctCounts(h);
    DistinctCounts(r);
    assert forall y :: y in r <==> y in multiset(r);
    assert forall y :: y in h <==> y in multiset(h);
  }

  lemma SameElements(h: seq<nat>, r: seq<nat>)
    requires Distinct(h) && multiset(r) == multiset(h)
    ensures Distinct(r) && forall y :: y in r <==> y in h
  {
    DistinctCounts(h);
    DistinctCounts(r);
    assert forall y :: y in r <==> y in multiset(r);
    assert forall y :: y in h <==> y in multiset(h);
  }

  /** Puts every one of `ids` back on the heap. */
  method PushAll(heap: seq<nat>, ids: seq<nat>) returns (r: seq<nat>)
    requires IsHeap(BlockKey, heap) && Distinct(heap) && Distinct(ids) && forall b :: b in ids ==> b !in heap
    ensures IsHeap(BlockKey, r) && Distinct(r) && |r| == |heap| + |ids|
    ensures forall b :: b in r <==> b in heap || b in ids
  {
    r := heap;
    for k := 0 to |ids|
      invariant IsHeap(BlockKey, r) && Distinct(r) && |r| == |heap| + k
      invariant forall b :: b in r <==> b in heap || b in ids[..k]
    {
      ghost var before := r;
      r := HeapPush<nat>(BlockKey, r, ids[k]);
      assert ids[..k + 1] == ids[..k] + [ids[k]];
      PushDistinct(before, ids[k], r);
    }
    assert ids[..|ids|] == ids;
  }

  /** Takes the lowest id off the heap. */
  lemma OneEntry(before: map<BlockTable, seq<Cell>>, after: map<BlockTable, seq<Cell>>, t: BlockTable, cells: seq<Cell>)
    requires after.Keys == before.Keys + {t} && after[t] == cells && forall u :: u in before && u != t ==>
               after[u] == before[u]
    ensures after == before[t := cells]
  {
  }

  /** `taken` are the lowest of the free blocks, in order, and `left` the others. Free were `before`, and
      the blocks from `low` up to `high` that have been added. */
  ghost predicate LowestFirst(before: seq<nat>, low: nat, high: nat, taken: seq<nat>, left: seq<nat>) {
    && (forall i, j :: 0 <= i < j < |taken| ==> taken[i] < taken[j])
    && (forall a, b :: a in taken && b in left ==> a < b)
    && (forall b :: b in taken || b in left <==> b in before || low <= b < high)
  }

  lemma NoneTaken(free: seq<nat>, n: nat)
    ensures LowestFirst(free, n, n, [], free)
  {
  }

  lemma LowestNext(before: seq<nat>, taken: seq<nat>, left: seq<nat>, id: nat, left': seq<nat>)
    requires LowestFirst(before, 0, 0, taken, left) && id in left && forall b :: b in left ==> id <= b
    requires forall b :: b in left' <==> b in left && b != id
    ensures LowestFirst(before, 0, 0, taken + [id], left')
  {
    forall i, j | 0 <= i < j < |taken + [id]| ensures (taken + [id])[i] < (taken + [id])[j] {
      assert taken[i] in taken;
    }
  }

  method PopLowest(heap: seq<nat>) returns (id: nat, rest: seq<nat>)
    requires IsHeap(BlockKey, heap) && Distinct(heap) && heap != []
    ensures IsHeap(BlockKey, rest) && Distinct(rest) && |rest| == |heap| - 1
    ensures id in heap && id !in rest && forall b :: b in rest <==> b in heap && b != id
    ensures forall b :: b in heap ==> id <= b
  {
    id, rest := HeapPop(BlockKey, heap);
    PopDistinct(heap, id, rest);
    forall b | b in heap ensures id <= b {
      assert Leq(BlockKey(id), BlockKey(b));
    }
  }

  // ---------------------------------------------------------------- the cache

  /** Which blocks of a pool belong to one request, and how many cells they hold. */
  class BlockTable {
    var blockIds: seq<nat>
    var length: nat

    constructor ()
      ensures blockIds == [] && length == 0
    {
      blockIds, length := [], 0;
    }
  }

  function Lengths(ts: seq<BlockTable>): (r: seq<nat>)
    reads ts
    ensures |r| == |ts| && forall i :: 0 <= i < |ts| ==> r[i] == ts[i].length
  {
    if ts == [] then [] else [ts[0].length] + Lengths(ts[1..])
  }

  ghost function IdsOf(ts: seq<BlockTable>): (r: seq<seq<nat>>)
    reads ts
    ensures |r| == |ts| && forall i :: 0 <= i < |ts| ==> r[i] == ts[i].blockIds
  {
    seq(|ts|, i requires 0 <= i < |ts| reads ts => ts[i].blockIds)
  }

  /** The ownership record once `t` has given up its blocks. */
  ghost function Released(owner: seq<BlockTable?>, t: BlockTable): (r: seq<BlockTable?>)
    ensures |r| == |owner|
    ensures forall b :: 0 <= b < |owner| ==> r[b] == if owner[b] == t then null else owner[b]
  {
    seq(|owner|, b requires 0 <= b < |owner| => if owner[b] == t then null else owner[b])
  }

  class PagedKVCache {
    const blockSize: nat
    const initialCapacity: nat
    var capacity: nat
    var pool: seq<Block>
    var freeBlocks: seq<nat>

    ghost var owner: seq<BlockTable?>    // owner[b]: the table that holds block b, if any
    ghost var tables: set<BlockTable>    // the tables that hold at least one block
    ghost var peak: nat                  // most blocks ever held at the same time

    ghost predicate Storage()
      reads `capacity, `pool, `owner
    {
      && blockSize > 0 && initialCapacity > 0
      && |pool| == capacity && |owner| == capacity
      && (forall b :: 0 <= b < capacity ==> |pool[b]| == blockSize)
    }

    ghost predicate FreeList()
      reads `capacity, `freeBlocks, `owner
    {
      && IsHeap(BlockKey, freeBlocks) && Distinct(freeBlocks)
      && |owner| == capacity
      && (forall b :: b in freeBlocks ==> b < capacity && owner[b] == null)
      && (forall b :: 0 <= b < capacity && owner[b] == null ==> b in freeBlocks)
    }

    ghost predicate Owns(t: BlockTable)
      reads `owner, t`blockIds
    {
      && Distinct(t.blockIds)
      && (forall k :: 0 <= k < |t.blockIds| ==> t.blockIds[k] < |owner| && owner[t.blockIds[k]] == t)
    }

    ghost predicate Ownership()
      reads `owner, `tables, tables`blockIds
    {
      && (forall t :: t in tables ==> Owns(t))
      && (forall b :: 0 <= b < |owner| && owner[b] != null ==> owner[b] in tables && b in owner[b].blockIds)
    }

    /** Blocks are handed out lowest first, so live ids stay below the peak. */
    ghost predicate Compact()
      reads `capacity, `freeBlocks, `owner, `peak
    {
      && (forall b :: 0 <= b < |owner| && owner[b] != null ==> b < peak)
      && capacity - |freeBlocks| <= peak
    }

    ghost predicate Consistent()
      reads this, tables
    {
      Storage() && FreeList() && Ownership() && Compact()
    }

    /** A table holds exactly the blocks its length calls for. */
    ghost predicate Sized(t: BlockTable)
      reads t
    {
      && t.blockIds != []
      && t.length <= |t.blockIds| * blockSize
      && (|t.blockIds| - 1) * blockSize < t.length
    }

    ghost predicate Valid()
      reads this, tables
    {
      && Consistent()
      && (forall t :: t in tables ==> Sized(t))
      && capacity <= Max(initialCapacity, 2 * peak)
    }

    /** A table the cache can serve: one of its own, or an empty one. */
    ghost predicate Serves(t: BlockTable)
      reads `tables, t
    {
      t in tables || (t.blockIds == [] && t.length == 0)
    }

    /** What a table stores: everything appended to it since it was last freed. */
    ghost function Contents(t: BlockTable): (r: seq<Cell>)
      requires Storage() && Owns(t) && t.length <= |t.blockIds| * blockSize
      reads this, t
      ensures |r| == t.length
    {
      Gather(pool, t.blockIds, blockSize, t.length)
    }

    /** The cache as its users see it: what each table that holds blocks stores. */
    ghost function Stored(): (m: map<BlockTable, seq<Cell>>)
      requires Valid()
      reads this, tables
      ensures m.Keys == tables
    {
      map t | t in tables :: Contents(t)
    }

    /** What is stored for `t`, with a table that holds no block standing for nothing. */
    ghost function View(t: BlockTable): (r: seq<Cell>)
      requires Valid()
      reads this, tables
    {
      if t in Stored() then Stored()[t] else []
    }

    /** A table whose own blocks were left alone still stores the same cells. */
    twostate lemma KeepsContents(t: BlockTable)
      requires old(Storage() && Owns(t) && t.length <= |t.blockIds| * blockSize)
      requires Storage() && Owns(t) && t.length <= |t.blockIds| * blockSize
      requires t.length == old(t.length) && old(t.blockIds) <= t.blockIds
      requires forall b :: 0 <= b < old(capacity) && old(owner)[b] == t ==> b < capacity && pool[b] == old(pool)[b]
      ensures Contents(t) == old(Contents(t))
    {
      GatherFrame(old(pool), pool, old(t.blockIds), t.blockIds, blockSize, t.length);
    }

    constructor (blockSize: nat, initialCapacity: nat)
      requires blockSize > 0
      ensures Valid() && tables == {} && peak == 0
      ensures this.blockSize == blockSize && this.initialCapacity == Max(initialCapacity, 1)
      ensures capacity == this.initialCapacity && |freeBlocks| == capacity
    {
      this.blockSize := blockSize;
      this.initialCapacity := Max(initialCapacity, 1);
      capacity, pool, freeBlocks := 0, [], [];
      owner, tables, peak := [], {}, 0;
      new;
      GrowPool(this.initialCapacity);
    }

    method GrowPool(newBlocks: nat)
      requires Consistent()
      modifies this
      ensures Consistent()
      ensures capacity == old(capacity) + newBlocks && |freeBlocks| == old(|freeBlocks|) + newBlocks
      ensures tables == old(tables) && peak == old(peak)
      ensures old(pool) <= pool && old(owner) <= owner
      ensures forall b :: b in freeBlocks <==> b in old(freeBlocks) || old(capacity) <= b < capacity
    {
      var newPool := pool + seq(newBlocks, _ => ZeroCells(blockSize));
      var free: seq<nat> := freeBlocks;
      for id := capacity to capacity + newBlocks
        invariant IsHeap(BlockKey, free) && Distinct(free) && |free| == |freeBlocks| + id - capacity
        invariant forall b :: b in free <==> b in freeBlocks || capacity <= b < id
        modifies {}
      {
        ghost var before := free;
        free := HeapPush<nat>(BlockKey, free, id);
        PushDistinct(before, id, free);
      }
      owner := owner + seq(newBlocks, _ => null);
      pool, freeBlocks, capacity := newPool, free, capacity + newBlocks;
    }

    method EnsureFree(nBlocks: nat)
      requires Consistent()
      requires capacity <= Max(initialCapacity, 2 * peak)
      modifies this
      ensures Consistent()
      ensures |freeBlocks| >= nBlocks
      ensures tables == old(tables) && peak == old(peak)
      ensures old(pool) <= pool && old(owner) <= owner
      // taking `nBlocks` now leaves the pool within twice the number of live blocks
      ensures capacity <= Max(initialCapacity, 2 * Max(peak, capacity - |freeBlocks| + nBlocks))
      ensures capacity - |freeBlocks| == old(capacity - |freeBlocks|)
      ensures forall b :: b in freeBlocks <==> b in old(freeBlocks) || old(capacity) <= b < capacity
    {
      if |freeBlocks| < nBlocks {
        var growBy := Max(capacity, nBlocks - |freeBlocks|);
        GrowPool(growBy);
      }
    }

    /** Moves the lowest free block to the end of `table`. */
    method TakeLowest(table: BlockTable)
      requires Consistent() && table in tables && freeBlocks != []
      modifies this, table
      ensures Consistent()
      ensures capacity == old(capacity) && pool == old(pool) && tables == old(tables)
      ensures |freeBlocks| == old(|freeBlocks|) - 1
      ensures peak == Max(old(peak), capacity - |freeBlocks|)
      ensures table.length == old(table.length)
      ensures exists id :: table.blockIds == old(table.blockIds) + [id] && id in old(freeBlocks)
                && (forall b :: b in old(freeBlocks) ==> id <= b)
                && (forall b :: b in freeBlocks <==> b in old(freeBlocks) && b != id)
    {
      var id, rest := PopLowest(freeBlocks);
      Pigeonhole(freeBlocks, id, capacity);
      freeBlocks := rest;
      owner := owner[id := table];
      table.blockIds := table.blockIds + [id];
      peak := Max(peak, capacity - |freeBlocks|);
    }

    /** Takes the lowest free blocks until `table` holds `count` of them. */
    method TakeBlocks(table: BlockTable, count: nat)
      requires Consistent() && table in tables
      requires |table.blockIds| <= count && |freeBlocks| >= count - |table.blockIds|
      requires capacity <= Max(initialCapacity, 2 * Max(peak, capacity - |freeBlocks| + count - |table.blockIds|))
      modifies this, table
      ensures Consistent() && tables == old(tables) && pool == old(pool) && capacity == old(capacity)
      ensures old(table.blockIds) <= table.blockIds && |table.blockIds| == count
      ensures table.length == old(table.length)
      ensures capacity <= Max(initialCapacity, 2 * peak)
      ensures peak == Max(old(peak), capacity - |freeBlocks|)
      ensures LowestFirst(old(freeBlocks), 0, 0, table.blockIds[|old(table.blockIds)|..], freeBlocks)
    {
      hide LowestFirst;
      ghost var n := |table.blockIds|;
      assert table.blockIds[n..] == [];
      NoneTaken(freeBlocks, 0);
      while |table.blockIds| < count
        invariant Consistent() && tables == old(tables) && pool == old(pool) && capacity == old(capacity)
        invariant old(table.blockIds) <= table.blockIds && |table.blockIds| <= count
        invariant table.length == old(table.length)
        invariant |freeBlocks| >= count - |table.blockIds|
        invariant LowestFirst(old(freeBlocks), 0, 0, table.blockIds[n..], freeBlocks)
        invariant peak == Max(old(peak), capacity - |freeBlocks|)
        invariant capacity <= Max(initialCapacity, 2 * Max(peak, capacity - |freeBlocks| + count - |table.blockIds|))
      {
        ghost var ids, free := table.blockIds, freeBlocks;
        TakeLowest(table);
        ghost var id := table.blockIds[|ids|];
        LowestNext(old(freeBlocks), ids[n..], free, id, freeBlocks);
        assert table.blockIds[n..] == ids[n..] + [id];
      }
    }

    /** Extends `table` to `count` blocks, growing the pool first if need be. */
    method Provide(table: BlockTable, count: nat)
      requires Consistent() && Serves(table) && count > |table.blockIds|
      requires capacity <= Max(initialCapacity, 2 * peak)
      modifies this, table
      ensures Consistent()
      ensures tables == old(tables) + {table} && table.length == old(table.length)
      ensures old(table.blockIds) <= table.blockIds && |table.blockIds| == count
      ensures old(pool) <= pool && |old(owner)| == |old(pool)|
      ensures capacity <= Max(initialCapacity, 2 * peak)
      ensures peak == Max(old(peak), capacity - |freeBlocks|)
      ensures LowestFirst(old(freeBlocks), old(capacity), capacity, table.blockIds[|old(table.blockIds)|..], freeBlocks)
    {
      EnsureFree(count - |table.blockIds|);
      tables := tables + {table};
      TakeBlocks(table, count);
    }

    /** Gives `table` the blocks that `nTokens` more tokens need. */
    method Allocate(table: BlockTable, nTokens: nat)
      requires Valid() && Serves(table) && nTokens > 0
      modifies this, table
      ensures Consistent()
      ensures tables == old(tables) + {table} && table.length == old(table.length)
      ensures capacity <= Max(initialCapacity, 2 * peak)
      ensures peak == Max(old(peak), capacity - |freeBlocks|)
      ensures old(table.blockIds) <= table.blockIds && |table.blockIds| == CeilDiv(table.length + nTokens, blockSize)
      ensures LowestFirst(old(freeBlocks), old(capacity), capacity, table.blockIds[|old(table.blockIds)|..], freeBlocks)
      ensures forall t :: t in tables ==> Owns(t) && t.length <= |t.blockIds| * blockSize
      ensures Contents(table) == old(View(table))
      ensures forall t :: t in old(tables) && t != table ==> Contents(t) == old(Contents(t))
    {
      var totalTokens := table.length + nTokens;
      var neededBlocks := CeilDiv(totalTokens, blockSize);
      var blocksToAdd := neededBlocks - |table.blockIds|;
      assert table in tables ==> Owns(table) && Sized(table);
      MulMonotone(neededBlocks, |table.blockIds| - 1, blockSize);
      NoneTaken(freeBlocks, capacity);
      if blocksToAdd > 0 {
        Provide(table, neededBlocks);
      }
      assert Owns(table);
      forall t | t in old(tables)
        ensures t.length <= |t.blockIds| * blockSize && Contents(t) == old(Contents(t))
      {
        assert old(Owns(t)) && Owns(t) && old(Sized(t));
        KeepsContents(t);
      }
    }

    /** Copies `src` into one of the table's blocks: the part of the block that begins at cell `pos`. */
    method WriteChunk(table: BlockTable, pos: nat, src: seq<Cell>)
      requires Storage() && Owns(table) && src != []
      requires pos + |src| <= |table.blockIds| * blockSize && pos % blockSize + |src| <= blockSize
      modifies `pool
      ensures Storage()
      ensures Gather(pool, table.blockIds, blockSize, pos + |src|)
              == old(Gather(pool, table.blockIds, blockSize, pos)) + src
      ensures forall b :: 0 <= b < capacity && owner[b] != table ==> pool[b] == old(pool[b])
    {
      DivBelow(pos, |table.blockIds|, blockSize);
      var blockIdxInTable := BlockOf(pos, blockSize);
      var offset := OffsetOf(pos, blockSize);
      var blockId := table.blockIds[blockIdxInTable];
      ghost var before := pool;
      pool := WriteCells(pool, blockId, offset, src);
      GatherWrite(before, table.blockIds, blockSize, pos, src, pool);
    }

    /** Copies `cells` into the table's blocks, behind the cells it already holds. */
    method WriteTokens(table: BlockTable, cells: seq<Cell>)
      requires Storage() && Owns(table)
      requires table.length + |cells| <= |table.blockIds| * blockSize
      modifies `pool
      ensures Storage()
      ensures Gather(pool, table.blockIds, blockSize, table.length + |cells|)
              == old(Gather(pool, table.blockIds, blockSize, table.length)) + cells
      ensures forall b :: 0 <= b < capacity && owner[b] != table ==> pool[b] == old(pool[b])
    {
      var pos, written := table.length, 0;
      while written < |cells|
        invariant 0 <= written <= |cells| && pos == table.length + written
        invariant Storage()
        invariant Gather(pool, table.blockIds, blockSize, pos)
                  == old(Gather(pool, table.blockIds, blockSize, table.length)) + cells[..written]
        invariant forall b :: 0 <= b < capacity && owner[b] != table ==> pool[b] == old(pool[b])
      {
        var offset := pos % blockSize;
        var take := Min(blockSize - offset, |cells| - written);
        WriteChunk(table, pos, cells[written..written + take]);
        assert cells[..written] + cells[written..written + take] == cells[..written + take];
        written := written + take;
        pos := pos + take;
      }
      assert cells[..written] == cells;
    }

    /** Writes `cells` behind what `table` holds, in blocks it already has. */
    method Fill(table: BlockTable, cells: seq<Cell>)
      requires Consistent() && table in tables
      requires table.length + |cells| <= |table.blockIds| * blockSize
      requires forall t :: t in tables ==> Owns(t) && t.length <= |t.blockIds| * blockSize
      modifies `pool, table`length
      ensures Consistent()
      ensures table.length == old(table.length) + |cells|
      ensures Contents(table) == old(Contents(table)) + cells
      ensures forall t :: t in tables && t != table ==> Contents(t) == old(Contents(t))
    {
      WriteTokens(table, cells);
      table.length := table.length + |cells|;
      forall t | t in tables && t != table
        ensures Contents(t) == old(Contents(t))
      {
        KeepsContents(t);
      }
    }

    /** Appends one step's new cells to what `table` stores; every other table keeps its own. */
    method Append(table: BlockTable, cells: seq<Cell>)
      requires Valid() && Serves(table)
      modifies this, table
      ensures Valid() && Serves(table)
      ensures Stored() == if cells == [] then old(Stored()) else old(Stored())[table := old(View(table)) + cells]
      ensures peak == Max(old(peak), capacity - |freeBlocks|)
    {
      hide CeilDiv, PagedKVCache.Contents;
      if |cells| > 0 {
        ghost var before, view := Stored(), View(table);
        Allocate(table, |cells|);
        Fill(table, cells);
        OneEntry(before, Stored(), table, view + cells);
      }
    }

    /** The table's first blocks, whole. */
    method GatherBlocks(ids: seq<nat>, count: nat) returns (row: seq<Cell>)
      requires Readable(pool, ids, blockSize) && count <= |ids|
      requires count * blockSize <= |ids| * blockSize
      ensures row == Gather(pool, ids, blockSize, count * blockSize)
    {
      row := [];
      for b := 0 to count
        invariant b * blockSize <= |ids| * blockSize
        invariant row == Gather(pool, ids, blockSize, b * blockSize)
      {
        MulMonotone(b + 1, |ids|, blockSize);
        assert (b + 1) * blockSize == b * blockSize + blockSize;
        GatherBlock(pool, ids, blockSize, b, blockSize);
        row := row + pool[ids[b]];
      }
    }

    /** Gathers one row by walking the table's whole blocks, then the partly filled last one. */
    method GatherRow(table: BlockTable) returns (row: seq<Cell>)
      requires Valid() && Serves(table)
      ensures row == View(table)
    {
      hide Gather, PagedKVCache.FreeList;
      assert table in tables ==> Owns(table) && Sized(table);
      if table.length == 0 {
        return [];
      }
      var fullBlocks := table.length / blockSize;
      var remainder := table.length % blockSize;
      RowSplit(table.length, |table.blockIds|, blockSize);
      row := GatherBlocks(table.blockIds, fullBlocks);
      if remainder > 0 {
        GatherBlock(pool, table.blockIds, blockSize, fullBlocks, remainder);
        row := row + pool[table.blockIds[fullBlocks]][..remainder];
      }
    }

    ghost function Views(ts: seq<BlockTable>): (r: seq<seq<Cell>>)
      requires Valid()
      reads this, tables, ts
      ensures |r| == |ts| && forall i :: 0 <= i < |ts| ==> r[i] == View(ts[i])
    {
      if ts == [] then [] else Views(ts[..|ts| - 1]) + [View(ts[|ts| - 1])]
    }

    /** Every row, left-padded with zeros to `width`. */
    method GatherRows(ts: seq<BlockTable>, width: nat, ghost views: seq<seq<Cell>>) returns (rows: seq<seq<Cell>>)
      requires Valid() && |views| == |ts|
      requires forall i :: 0 <= i < |ts| ==> Serves(ts[i]) && View(ts[i]) == views[i] && |views[i]| <= width
      ensures |rows| == |ts|
      ensures forall i :: 0 <= i < |ts| ==> rows[i] == PadLeft(views[i], width)
    {
      rows := [];
      for i := 0 to |ts|
        invariant |rows| == i
        invariant forall j :: 0 <= j < i ==> rows[j] == PadLeft(views[j], width)
        modifies {}
      {
        var row := GatherRow(ts[i]);
        row := PadRow(row, width);
        rows := rows + [row];
      }
    }

    lemma ViewLengths(ts: seq<BlockTable>)
      requires Valid() && forall i :: 0 <= i < |ts| ==> Serves(ts[i])
      ensures Lengths(ts) == RowLengths(Views(ts))
    {
      forall i | 0 <= i < |ts|
        ensures Lengths(ts)[i] == RowLengths(Views(ts))[i]
      {
        ServedLength(ts[i]);
      }
    }

    /** The dense view the model reads: every row left-padded with zeros to the longest one. */
    method GatherDense(ts: seq<BlockTable>) returns (rows: seq<seq<Cell>>, lengths: seq<nat>)
      requires Valid() && forall i :: 0 <= i < |ts| ==> Serves(ts[i])
      ensures lengths == RowLengths(Views(ts))
      ensures rows == PadAll(Views(ts))
    {
      ghost var views := Views(ts);
      lengths := Lengths(ts);
      ViewLengths(ts);
      ghost var padded := PadAll(views);
      rows := GatherRows(ts, MaxLength(lengths), views);
      assert rows == padded;
    }

    /** Returns every block of `table` to the pool and leaves it empty. */
    method Free(table: BlockTable)
      requires Valid() && Serves(table)
      modifies this, table
      ensures Valid()
      ensures Stored() == old(Stored()) - {table}
      ensures table.blockIds == [] && table.length == 0
      ensures capacity == old(capacity) && peak == old(peak)
    {
      assert table in tables ==> Owns(table) && Sized(table);
      var free := PushAll(freeBlocks, table.blockIds);
      freeBlocks := free;
      owner := Released(owner, table);
      tables := tables - {table};
      table.blockIds := [];
      table.length := 0;
      forall t | t in tables
        ensures Owns(t) && Sized(t) && Contents(t) == old(Contents(t))
      {
        assert old(Owns(t)) && old(Sized(t));
        KeepsContents(t);
      }
    }

    /** The lowest cut, no lower than `floor`, above which every block is free. */
    method LowestCut(floor: nat) returns (cut: nat)
      requires Valid()
      ensures cut <= capacity && (capacity <= floor ==> cut == capacity)
      ensures capacity > floor ==> cut >= floor && (cut == floor || owner[cut - 1] != null)
      ensures forall b :: cut <= b < capacity ==> owner[b] == null
    {
      var freeSet := set b | b in freeBlocks;
      cut := capacity;
      while cut > floor && cut - 1 in freeSet
        invariant cut <= capacity && (capacity <= floor ==> cut == capacity)
        invariant capacity > floor ==> cut >= floor
        invariant forall b :: cut <= b < capacity ==> owner[b] == null
      {
        cut := cut - 1;
      }
    }

    /** Cuts the pool at `newCapacity`, above which every block is free. */
    method Cut(newCapacity: nat)
      requires Valid() && newCapacity <= capacity
      requires forall b :: newCapacity <= b < capacity ==> owner[b] == null
      modifies this
      ensures Valid()
      ensures peak == old(peak) && capacity == newCapacity
      ensures owner == old(owner)[..newCapacity]
      ensures Stored() == old(Stored())
    {
      FilterDistinct(freeBlocks, newCapacity);
      Pigeonhole(AtLeast(freeBlocks, newCapacity), newCapacity, capacity);
      ghost var kept := Below(freeBlocks, newCapacity);
      var rest: seq<nat> := Heapify<nat>(BlockKey, Below(freeBlocks, newCapacity));
      SameElements(kept, rest);
      pool := pool[..newCapacity];
      owner := owner[..newCapacity];
      freeBlocks := rest;
      capacity := newCapacity;
      forall t | t in tables
        ensures Owns(t) && Contents(t) == old(Contents(t))
      {
        assert old(Owns(t)) && old(Sized(t));
        KeepsContents(t);
      }
    }

    /** Drops trailing blocks that are all free, down to `minCapacity` at most. */
    method TrimTail(minCapacity: int) returns (reclaimed: nat)
      requires Valid()
      modifies this
      ensures Valid()
      ensures peak == old(peak)
      ensures reclaimed == old(capacity) - capacity
      // the cut is as low as the floor and the highest live block allow, and no lower
      ensures old(capacity) <= Max(minCapacity, 1) ==> capacity == old(capacity)
      ensures old(capacity) > Max(minCapacity, 1) ==>
                capacity == Max(minCapacity, 1)
                || (capacity > Max(minCapacity, 1) && exists t :: t in tables && capacity - 1 in t.blockIds)
      // so it is never more than the floor or the peak, and exactly the floor when nothing is live
      ensures capacity <= Max(Max(minCapacity, 1), peak)
      ensures tables == {} ==> capacity == Min(old(capacity), Max(minCapacity, 1))
      ensures Stored() == old(Stored())
    {
      hide PagedKVCache.Contents;
      var newCapacity := LowestCut(Max(minCapacity, 1));
      reclaimed := capacity - newCapacity;
      if newCapacity < capacity {
        Cut(newCapacity);
      }
      if capacity > Max(minCapacity, 1) {
        assert owner[capacity - 1] in tables && capacity - 1 in owner[capacity - 1].blockIds;
        StaysCompact();
      }
    }

    /** The structural self-check a table must pass before its cells are trusted. */
    ghost predicate WellFormed(t: BlockTable)
      reads this, t
    {
      if t.blockIds == [] then t.length == 0
      else
        && (forall k :: 0 <= k < |t.blockIds| ==> t.blockIds[k] < capacity && t.blockIds[k] !in freeBlocks)
        && (|t.blockIds| - 1) * blockSize + 1 <= t.length <= |t.blockIds| * blockSize
    }

    method IsValid(t: BlockTable) returns (ok: bool)
      ensures ok == WellFormed(t)
    {
      if t.blockIds == [] {
        return t.length == 0;
      }
      var freeSet := set b | b in freeBlocks;
      for k := 0 to |t.blockIds|
        invariant forall j :: 0 <= j < k ==> t.blockIds[j] < capacity && t.blockIds[j] !in freeBlocks
      {
        if t.blockIds[k] >= capacity || t.blockIds[k] in freeSet {
          return false;
        }
      }
      var minLength := (|t.blockIds| - 1) * blockSize + 1;
      var maxLength := |t.blockIds| * blockSize;
      return minLength <= t.length <= maxLength;
    }

    /** A served table is empty exactly when it is not one of the cache's own. */
    lemma ServedLength(t: BlockTable)
      requires Valid() && Serves(t)
      ensures |View(t)| == t.length
      ensures t in tables <==> t.length > 0
      ensures t in tables <==> t.blockIds != []
    {
      if t in tables {
        assert Owns(t) && Sized(t);
        MulMonotone(0, |t.blockIds| - 1, blockSize);
      }
    }

    /** The self-check never fires on a table this cache serves. */
    lemma ServedTablesAreWellFormed(t: BlockTable)
      requires Valid() && Serves(t)
      ensures WellFormed(t)
    {
      if t in tables {
        assert Owns(t) && Sized(t);
        forall k | 0 <= k < |t.blockIds|
          ensures t.blockIds[k] < capacity && t.blockIds[k] !in freeBlocks
        {
          assert owner[t.blockIds[k]] == t;
        }
      }
    }

    /** Free ids and table ids partition the pool: nothing is shared and nothing leaks. */
    lemma Partition()
      requires Valid()
      ensures Distinct(freeBlocks) && forall t :: t in tables ==> Distinct(t.blockIds)
      ensures forall b :: b in freeBlocks ==> b < capacity
      ensures forall t, b :: t in tables && b in t.blockIds ==> b < capacity && b !in freeBlocks
      ensures forall b :: 0 <= b < capacity && b !in freeBlocks ==> exists t :: t in tables && b in t.blockIds
      ensures forall t, u, b :: t in tables && u in tables && b in t.blockIds && b in u.blockIds ==> t == u
    {
      forall t, b | t in tables && b in t.blockIds
        ensures b < capacity && owner[b] == t
      {
        assert Owns(t);
      }
      forall b | 0 <= b < capacity && b !in freeBlocks
        ensures exists t :: t in tables && b in t.blockIds
      {
        assert owner[b] in tables && b in owner[b].blockIds;
      }
    }

    /** The blocks in use are those that the tables list: `ts` lists each table once. */
    lemma BlocksInUse(ts: seq<BlockTable>)
      requires Valid() && Distinct(ts) && forall t :: t in tables ==> t in ts
      requires forall t :: t in ts ==> Serves(t)
      ensures capacity - |freeBlocks| == |Flatten(IdsOf(ts))|
    {
      var used := Flatten(IdsOf(ts));
      Partition();
      forall i | 0 <= i < |ts| ensures Distinct(IdsOf(ts)[i]) {
        assert ts[i] in ts;
      }
      forall i, j, b | 0 <= i < j < |ts| && b in IdsOf(ts)[i] ensures b !in IdsOf(ts)[j] {
        assert ts[i] in ts && ts[j] in ts && ts[i] != ts[j];
      }
      FlattenDistinct(IdsOf(ts));
      forall b | b in used ensures b < capacity && b !in freeBlocks {
        FlattenMembers(IdsOf(ts), b);
        var i :| 0 <= i < |ts| && b in ts[i].blockIds;
        assert ts[i] in ts;
      }
      AppendDistinct(freeBlocks, used);
      forall b | 0 <= b < capacity ensures b in freeBlocks + used {
        if b !in freeBlocks {
          var t :| t in tables && b in t.blockIds;
          var i :| 0 <= i < |ts| && ts[i] == t;
          assert b in IdsOf(ts)[i];
          FlattenMembers(IdsOf(ts), b);
        }
      }
      Pigeonhole(freeBlocks + used, 0, capacity);
      CoversAll(freeBlocks + used, capacity);
    }

    lemma BlockCount(t: BlockTable)
      requires Valid() && Serves(t)
      ensures |t.blockIds| == CeilDiv(|View(t)|, blockSize)
    {
      ServedLength(t);
      if t in tables {
        assert Sized(t);
      }
      CeilDivUnique(|t.blockIds|, t.length, blockSize);
    }

    /** Every live block id lies below the most blocks ever live at once, and the pool never
        grows past twice that number. */
    lemma StaysCompact()
      requires Valid()
      ensures forall t, b :: t in tables && b in t.blockIds ==> b < peak
      ensures capacity <= Max(initialCapacity, 2 * peak)
    {
      forall t, b | t in tables && b in t.blockIds
        ensures b < peak
      {
        assert Owns(t) && owner[b] == t;
      }
    }
  }

  // ---------------------------------------------------------------- whole runs

  datatype Op = AppendTo(table: BlockTable, cells: seq<Cell>) | Release(table: BlockTable) | Trim(minCapacity: int)

  /** The reference: each table is its own append-only sequence, emptied when it is freed. */
  ghost function Effect(op: Op, t: BlockTable, stored: seq<Cell>): seq<Cell> {
    match op
    case AppendTo(u, cells) => if u == t then stored + cells else stored
    case Release(u) => if u == t then [] else stored
    case Trim(_) => stored
  }

  ghost function Expected(ops: seq<Op>, t: BlockTable): seq<Cell> {
    if ops == [] then [] else Effect(ops[|ops| - 1], t, Expected(ops[..|ops| - 1], t))
  }

  /** How many blocks the tables need for what they store: the least number, table by table. */
  ghost function LiveBlocks(ops: seq<Op>, ts: seq<BlockTable>, bs: nat): nat
    requires bs > 0
  {
    if ts == [] then 0
    else LiveBlocks(ops, ts[..|ts| - 1], bs) + CeilDiv(|Expected(ops, ts[|ts| - 1])|, bs)
  }

  /** The most blocks needed at the same time, over the whole run. */
  ghost function PeakBlocks(ops: seq<Op>, ts: seq<BlockTable>, bs: nat): nat
    requires bs > 0
  {
    if ops == [] then 0 else Max(PeakBlocks(ops[..|ops| - 1], ts, bs), LiveBlocks(ops, ts, bs))
  }

  lemma {:induction false} LengthsAdd(lists: seq<seq<nat>>, ops: seq<Op>, ts: seq<BlockTable>, bs: nat)
    requires bs > 0 && |lists| == |ts|
    requires forall i :: 0 <= i < |ts| ==> |lists[i]| == CeilDiv(|Expected(ops, ts[i])|, bs)
    ensures |Flatten(lists)| == LiveBlocks(ops, ts, bs)
  {
    if ts != [] {
      hide CeilDiv, Expected;
      var n := |ts| - 1;
      LengthsAdd(lists[..n], ops, ts[..n], bs);
    }
  }

  /** The blocks in use are as many as the reference needs. */
  lemma InUseIsLive(cache: PagedKVCache, ops: seq<Op>, ts: seq<BlockTable>)
    requires cache.Valid() && Distinct(ts) && forall t :: t in cache.tables ==> t in ts
    requires forall t :: t in ts ==> cache.Serves(t) && cache.View(t) == Expected(ops, t)
    ensures cache.capacity - |cache.freeBlocks| == LiveBlocks(ops, ts, cache.blockSize)
  {
    cache.BlocksInUse(ts);
    hide Flatten, LiveBlocks, Expected, CeilDiv;
    forall i | 0 <= i < |ts| ensures |IdsOf(ts)[i]| == CeilDiv(|Expected(ops, ts[i])|, cache.blockSize) {
      assert ts[i] in ts;
      cache.BlockCount(ts[i]);
    }
    LengthsAdd(IdsOf(ts), ops, ts, cache.blockSize);
  }

  method PerformOne(cache: PagedKVCache, op: Op, ghost ts: seq<BlockTable>)
    requires cache.Valid() && (forall t :: t in cache.tables ==> t in ts) && forall t :: t in ts ==> cache.Serves(t)
    requires op.Trim? || op.table in ts
    modifies cache, ts
    ensures cache.Valid() && forall t :: t in cache.tables ==> t in ts
    ensures forall t :: t in ts ==> cache.Serves(t) && cache.View(t) == Effect(op, t, old(cache.View(t)))
    ensures cache.peak == Max(old(cache.peak), cache.capacity - |cache.freeBlocks|)
  {
    match op {
      case AppendTo(t, cells) => cache.Append(t, cells);
      case Release(t) => cache.Free(t);
      case Trim(m) => var _ := cache.TrimTail(m);
    }
  }

  /** Any interleaving of appends, frees and trims over any number of tables, with the growth they
      cause: each table still holds its own sequence, and passes the self-check; every live block id
      is below the most blocks ever needed at once; and the pool is within twice that number. */
  method Perform(blockSize: nat, initialCapacity: nat, ops: seq<Op>, ghost ts: seq<BlockTable>)
      returns (cache: PagedKVCache)
    requires blockSize > 0 && Distinct(ts) && forall t :: t in ts ==> t.blockIds == [] && t.length == 0
    requires forall i :: 0 <= i < |ops| && !ops[i].Trim? ==> ops[i].table in ts
    modifies ts
    ensures fresh(cache) && cache.Valid() && cache.blockSize == blockSize && forall t :: t in cache.tables ==> t in ts
    ensures forall t :: t in ts ==> cache.Serves(t) && cache.View(t) == Expected(ops, t) && cache.WellFormed(t)
    ensures cache.capacity - |cache.freeBlocks| == LiveBlocks(ops, ts, blockSize)
    ensures forall t, b :: t in ts && b in t.blockIds ==> b < PeakBlocks(ops, ts, blockSize)
    ensures cache.capacity <= Max(Max(initialCapacity, 1), 2 * PeakBlocks(ops, ts, blockSize))
  {
    hide Expected, Effect, LiveBlocks, PagedKVCache.WellFormed;
    cache := new PagedKVCache(blockSize, initialCapacity);
    NothingDone(ts);
    for i := 0 to |ops|
      invariant cache.Valid() && fresh(cache) && cache.blockSize == blockSize
                && cache.initialCapacity == Max(initialCapacity, 1)
      invariant forall t :: t in cache.tables ==> t in ts
      invariant forall t :: t in ts ==> cache.Serves(t) && cache.View(t) == Expected(ops[..i], t)
      invariant cache.peak == PeakBlocks(ops[..i], ts, blockSize)
    {
      PerformOne(cache, ops[i], ts);
      OneMoreOp(ops, i, ts, blockSize);
      InUseIsLive(cache, ops[..i + 1], ts);
    }
    assert ops[..|ops|] == ops;
    InUseIsLive(cache, ops, ts);
    cache.StaysCompact();
    forall t | t in ts ensures cache.WellFormed(t) {
      cache.ServedTablesAreWellFormed(t);
    }
  }

  lemma NothingDone(ts: seq<BlockTable>)
    ensures forall t :: t in ts ==> Expected([], t) == []
  {
  }

  lemma OneMoreOp(ops: seq<Op>, i: nat, ts: seq<BlockTable>, bs: nat)
    requires i < |ops| && bs > 0
    ensures forall t :: t in ts ==> Expected(ops[..i + 1], t) == Effect(ops[i], t, Expected(ops[..i], t))
    ensures PeakBlocks(ops[..i + 1], ts, bs) == Max(PeakBlocks(ops[..i], ts, bs), LiveBlocks(ops[..i + 1], ts, bs))
  {
    assert ops[..i + 1][..i] == ops[..i];
  }
}
