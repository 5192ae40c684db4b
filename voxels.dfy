/** The voxel data structures: voxels, the sparse voxel octree whose construction is
    not written yet, and the debug chunk generator, which lists every cell of a
    64 x 40 x 64 block in row-major order with a random colour each. The random
    colours are a parameter: `draw(n)` is the colour the generator draws n-th. */
module Voxels {

  const ChunkX: nat := 64
  const ChunkY: nat := 40
  const ChunkZ: nat := 64
  const ChunkVoxels: nat := ChunkX * ChunkY * ChunkZ

  datatype Position = Position(x: int, y: int, z: int)

  datatype Voxel = Voxel(pos: Position, color: bv32)

  predicate InChunk(p: Position) {
    0 <= p.x < ChunkX && 0 <= p.y < ChunkY && 0 <= p.z < ChunkZ
  }

  /** Where the generator puts position p in its list: z varies fastest, then y, then x. */
  function IndexOf(p: Position): int {
    (p.x * ChunkY + p.y) * ChunkZ + p.z
  }

  /** The position at index n of the generated list. */
  function PositionAt(n: nat): Position {
    Position(n / (ChunkY * ChunkZ), (n / ChunkZ) % ChunkY, n % ChunkZ)
  }

  /** Every index of the list names a cell of the chunk, and IndexOf undoes PositionAt. */
  lemma PositionAtInChunk(n: nat)
    requires n < ChunkVoxels
    ensures InChunk(PositionAt(n)) && IndexOf(PositionAt(n)) == n
  {
    var p := PositionAt(n);
    assert n / ChunkZ == p.x * ChunkY + p.y;
    assert n == (n / ChunkZ) * ChunkZ + p.z;
  }

  /** Every cell of the chunk has an index in the list, and PositionAt undoes IndexOf. */
  lemma IndexOfInRange(p: Position)
    requires InChunk(p)
    ensures 0 <= IndexOf(p) < ChunkVoxels && PositionAt(IndexOf(p)) == p
  {
    var m := p.x * ChunkY + p.y;
    assert 0 <= m < ChunkX * ChunkY;
    var n := m * ChunkZ + p.z;
    assert n / ChunkZ == m && n % ChunkZ == p.z;
    assert m / ChunkY == p.x && m % ChunkY == p.y;
    assert n / (ChunkY * ChunkZ) == m / ChunkY;
  }

  /** Each cell of the chunk occurs exactly once in the list. */
  lemma EachCellOnce(p: Position, n: nat, m: nat)
    requires InChunk(p) && n < ChunkVoxels && m < ChunkVoxels
    ensures PositionAt(n) == p && PositionAt(m) == p ==> n == m
    ensures exists i :: 0 <= i < ChunkVoxels && PositionAt(i) == p
  {
    if PositionAt(n) == p && PositionAt(m) == p {
      PositionAtInChunk(n);
      PositionAtInChunk(m);
    }
    IndexOfInRange(p);
  }

  /** Lexicographic order on positions, x first. */
  predicate LexLess(p: Position, q: Position) {
    p.x < q.x || (p.x == q.x && (p.y < q.y || (p.y == q.y && p.z < q.z)))
  }

  /** The list is ordered lexicographically, z fastest. */
  lemma ListIsLexOrdered(n: nat, m: nat)
    requires n < m < ChunkVoxels
    ensures LexLess(PositionAt(n), PositionAt(m))
  {
    PositionAtInChunk(n);
    PositionAtInChunk(m);
  }

  /** generateChunk_debug: a triple loop pushing the voxel at (i, j, k) with the next
      random colour, for 0 <= i < 64, 0 <= j < 40, 0 <= k < 64. */
  method GenerateChunkDebug(draw: nat -> bv32) returns (list: seq<Voxel>)
    ensures |list| == ChunkVoxels
    ensures forall n :: 0 <= n < |list| ==> list[n] == Voxel(PositionAt(n), draw(n))
  {
    list := [];
    for i := 0 to ChunkX
      invariant |list| == i * ChunkY * ChunkZ
      invariant forall n :: 0 <= n < |list| ==> list[n] == Voxel(PositionAt(n), draw(n))
    {
      for j := 0 to ChunkY
        invariant |list| == (i * ChunkY + j) * ChunkZ
        invariant forall n :: 0 <= n < |list| ==> list[n] == Voxel(PositionAt(n), draw(n))
      {
        for k := 0 to ChunkZ
          invariant |list| == (i * ChunkY + j) * ChunkZ + k
          invariant forall n :: 0 <= n < |list| ==> list[n] == Voxel(PositionAt(n), draw(n))
        {
          IndexOfInRange(Position(i, j, k));
          list := list + [Voxel(Position(i, j, k), draw(|list|))];
        }
      }
    }
  }

  /** An octree node: a leaf holds a voxel, an inner node eight children. */
  class SVONode {
    var leaf: bool
    var children: seq<SVONode?>
    var voxel: Voxel
  }

  class SVO {
    var leaf: bool
    var root: SVONode?

    /** SVO::construct has an empty body: it changes nothing. */
    method Construct(voxelList: seq<Voxel>)
      modifies this
      ensures leaf == old(leaf) && root == old(root)
    {
    }

    /** SVO::construct64_3 runs six empty iterations: it changes nothing either. */
    method Construct64X3(voxelList: seq<Voxel>)
      modifies this
      ensures leaf == old(leaf) && root == old(root)
    {
      for i := 0 to 6
        invariant leaf == old(leaf) && root == old(root)
      {
      }
    }
  }
}
