/** The one step of `init` that the allocator relies on: the configured spares are numbered in place. */
module Configuration {
  import opened Assignments
  import opened Pools

  /** The loop does what `RenameSpares` specifies; `Pools.RenamedPool` says what that means for the order of
    the pool and for what is written to disk. */
  method NumberSpares(pool: array<string>)
    modifies pool
    ensures pool[..] == RenameSpares(old(pool[..]), 0)
  {
    hide SpareName, RenameSpares;
    ghost var raw := pool[..];
    var spareIdx := 0;
    for idx := 0 to pool.Length
      invariant pool[idx..] == raw[idx..]
      invariant pool[..idx] + RenameSpares(raw[idx..], spareIdx) == RenameSpares(raw, 0)
    {
      RenameHead(raw, idx, spareIdx);
      ghost var before := pool[..idx];
      if pool[idx] == "spare" {
        pool[idx] := SpareName(spareIdx);
        spareIdx := spareIdx + 1;
      }
      assert pool[..idx + 1] == before + [pool[idx]];
      assert before + ([pool[idx]] + RenameSpares(raw[idx + 1..], spareIdx)) == pool[..idx + 1] + RenameSpares(raw[idx + 1..], spareIdx);
    }
    assert pool[..pool.Length] == pool[..] && raw[pool.Length..] == [];
    RenameNone(spareIdx);
  }

  lemma RenameNone(next: nat)
    ensures RenameSpares([], next) == []
  {
  }

  lemma RenameHead(raw: seq<string>, i: nat, next: nat)
    requires i < |raw|
    ensures RenameSpares(raw[i..], next)
         == if raw[i] == "spare" then [SpareName(next)] + RenameSpares(raw[i + 1..], next + 1)
            else [raw[i]] + RenameSpares(raw[i + 1..], next)
  {
    assert raw[i..][1..] == raw[i + 1..];
  }
}
