/** The token blocks of a prompt and their arithmetic. */
module PagedKvChunks {
  import opened Wrappers
  import opened Arithmetic
  import opened PagedKv

  lemma {:induction false} ChunkCount(tokens: seq<int>, size: Pos)
    ensures |tokens| == |Chunks(tokens, size)| * size + |tokens| % size
    decreases |tokens|
  {
    if |tokens| >= size {
      var rest := tokens[size..];
      ChunkCount(rest, size);
      var k := |Chunks(rest, size)|;
      assert |tokens| == (k + 1) * size + |rest| % size;
      DivModUnique(|tokens|, size, k + 1, |rest| % size);
    }
  }

  /** The prompt has one block for every full slice of its tokens. */
  lemma ChunkTotal(tokens: seq<int>, size: Pos)
    ensures |Chunks(tokens, size)| == |tokens| / size
  {
    ChunkCount(tokens, size);
    DivModUnique(|tokens|, size, |Chunks(tokens, size)|, |tokens| % size);
  }

  /** The j-th block is the j-th slice of the tokens. */
  lemma {:induction false} ChunkAt(tokens: seq<int>, size: Pos, j: nat)
    requires j < |Chunks(tokens, size)|
    ensures 0 <= j * size <= (j + 1) * size <= |tokens|
    ensures Chunks(tokens, size)[j] == tokens[j * size..(j + 1) * size]
    decreases j
  {
    if j > 0 {
      var rest := tokens[size..];
      ChunkAt(rest, size, j - 1);
      assert (j - 1) * size + size == j * size && j * size + size == (j + 1) * size;
      assert rest[(j - 1) * size..j * size] == tokens[j * size..(j + 1) * size];
    }
  }

  /** The number of full blocks, as the loops compute it. */
  function FullBlocks(tokens: seq<int>, size: Pos): (n: nat)
    ensures n == |Chunks(tokens, size)|
  {
    ChunkTotal(tokens, size);
    |tokens| / size
  }

  /** The tokens of block j, as the loops slice them. */
  function BlockTokens(tokens: seq<int>, size: Pos, j: nat): (t: seq<int>)
    requires j < |Chunks(tokens, size)|
    ensures t == Chunks(tokens, size)[j]
  {
    ChunkAt(tokens, size, j);
    tokens[j * size..(j + 1) * size]
  }

  // ----- Blocks for a number of tokens -----

  /** (tokens + size - 1) / size */
  function BlocksFor(tokens: nat, size: Pos): nat {
    (tokens + size - 1) / size
  }

  lemma BlocksForNone(size: Pos)
    ensures BlocksFor(0, size) == 0
  {
    DivModUnique(size - 1, size, 0, size - 1);
  }

  lemma BlocksForOne(tokens: nat, size: Pos)
    requires 0 < tokens <= size
    ensures BlocksFor(tokens, size) == 1
  {
    DivModUnique(tokens + size - 1, size, 1, tokens - 1);
  }

  lemma BlocksForMore(tokens: nat, size: Pos)
    requires tokens >= size
    ensures BlocksFor(tokens - size, size) + 1 == BlocksFor(tokens, size)
  {
    var q, r := (tokens - 1) / size, (tokens - 1) % size;
    assert tokens + size - 1 == (q + 1) * size + r;
    DivModUnique(tokens + size - 1, size, q + 1, r);
  }

  /** Taking one block's worth of tokens away saves exactly one block. */
  lemma BlocksForStep(tokens: nat, size: Pos)
    ensures tokens == 0 <==> BlocksFor(tokens, size) == 0
    ensures tokens >= size ==> BlocksFor(tokens - size, size) == BlocksFor(tokens, size) - 1
    ensures 0 < tokens <= size ==> BlocksFor(tokens, size) == 1
  {
    BlocksForNone(size);
    if 0 < tokens <= size {
      BlocksForOne(tokens, size);
    }
    if tokens >= size {
      BlocksForMore(tokens, size);
    }
    hide BlocksFor;
  }
}
