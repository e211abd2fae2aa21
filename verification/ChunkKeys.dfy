/** Chunk keys of rag/index.go: the document's ID, a NUL, and the chunk's index in decimal. */
module ChunkKeys {
  import opened Bm25

  const NUL := '\0'

  function Itoa(n: nat): string {
    if n < 10 then [Digit(n)] else Itoa(n / 10) + [Digit(n % 10)]
  }

  function Digit(d: nat): char
    requires d < 10
  {
    '0' + d as char
  }

  lemma {:induction false} ItoaDigits(n: nat)
    ensures Itoa(n) != [] && forall i | 0 <= i < |Itoa(n)| :: '0' <= Itoa(n)[i] <= '9'
  {
    if n >= 10 {
      ItoaDigits(n / 10);
    }
  }

  lemma {:induction false} ItoaInjective(m: nat, n: nat)
    requires Itoa(m) == Itoa(n)
    ensures m == n
  {
    var s, s' := Itoa(m), Itoa(n);
    ItoaDigits(m / 10);
    ItoaDigits(n / 10);
    assert s[|s| - 1] == Digit(m % 10) && s'[|s'| - 1] == Digit(n % 10);
    assert m % 10 == n % 10;
    if m >= 10 && n >= 10 {
      assert s[..|s| - 1] == Itoa(m / 10) && s'[..|s'| - 1] == Itoa(n / 10);
      ItoaInjective(m / 10, n / 10);
    }
  }

  function ChunkKey(id: string, index: nat): Key {
    Key(id + [NUL] + Itoa(index))
  }

  /** The last NUL of a key ends the ID. */
  lemma LastNul(id: string, index: nat)
    ensures var s := ChunkKey(id, index).text;
            s[|id|] == NUL && forall p | |id| < p < |s| :: s[p] != NUL
  {
    var s := ChunkKey(id, index).text;
    ItoaDigits(index);
    forall p | |id| < p < |s| ensures s[p] != NUL {
      assert s[p] == Itoa(index)[p - |id| - 1];
    }
  }

  /** Two chunks share a key only if they are the same chunk, even when an ID contains NULs. */
  lemma ChunkKeyInjective(a: string, i: nat, b: string, j: nat)
    requires ChunkKey(a, i) == ChunkKey(b, j)
    ensures a == b && i == j
  {
    var s := ChunkKey(a, i).text;
    LastNul(a, i);
    LastNul(b, j);
    assert |a| == |b|;
    assert a == s[..|a|] && b == s[..|b|];
    assert Itoa(i) == s[|a| + 1..] && Itoa(j) == s[|b| + 1..];
    ItoaInjective(i, j);
  }
}
