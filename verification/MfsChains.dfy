/** Files as linked chains of data sectors: what makes a set of chains sound. */
module MfsChains {
  import opened Machine
  import opened MfsFormat
  import opened MfsState

  predicate NoDup(c: seq<u16>) {
    forall i, j :: 0 <= i < j < |c| ==> c[i] != c[j]
  }

  predicate Disjoint(c: seq<u16>, d: seq<u16>) {
    forall i, j :: 0 <= i < |c| && 0 <= j < |d| ==> c[i] != d[j]
  }

  predicate AllData(root: Root, c: seq<u16>) {
    forall j :: 0 <= j < |c| ==> IsData(root, c[j])
  }

  predicate AllMarked(bm: Sector, c: seq<u16>) {
    forall j :: 0 <= j < |c| ==> c[j] < 8 * SECTOR && Marked(bm, c[j])
  }

  /** The successor of position `j` in chain `c`, 0 at the end. */
  function After(c: seq<u16>, j: nat): u16 {
    if j + 1 < |c| then c[j + 1] else 0
  }

  /** Following next pointers from `b` visits exactly `c` and then reaches 0. */
  predicate IsChain(disk: seq<Sector>, b: u16, c: seq<u16>) {
    && b == (if c == [] then 0 else c[0])
    && (forall j :: 0 <= j < |c| ==> 0 < c[j] < |disk|)
    && forall j {:trigger Next(disk[c[j]])} :: 0 <= j < |c| ==> Next(disk[c[j]]) == After(c, j)
  }

  type Chains = cs: seq<seq<u16>> | |cs| == MAX_FILES witness seq(MAX_FILES, _ => [])

  /** Slot `i` holds chain `c`: acyclic, inside the data region, and marked. */
  predicate SlotSound(s: State, i: int, c: seq<u16>)
    requires 0 <= i < |s.files|
  {
    IsChain(s.disk, s.files[i].block, c) && NoDup(c) && AllData(s.root, c) && AllMarked(s.bitmap, c)
  }

  /** One sound chain per slot, and no two share a block. */
  predicate SoundWith(s: State, cs: Chains) {
    && Sane(s)
    && (forall i :: 0 <= i < MAX_FILES ==> SlotSound(s, i, cs[i]))
    && forall i, j :: 0 <= i < j < MAX_FILES ==> Disjoint(cs[i], cs[j])
  }

  ghost predicate Sound(s: State) {
    exists cs: Chains :: SoundWith(s, cs)
  }

  /** A head block has only one chain. */
  lemma ChainUnique(disk: seq<Sector>, b: u16, c: seq<u16>, d: seq<u16>)
    requires IsChain(disk, b, c) && IsChain(disk, b, d)
    ensures c == d
  {
    forall j | 0 <= j < |c| ensures j < |d| && c[j] == d[j] { ChainUniqueAt(disk, b, c, d, j); }
    forall j | 0 <= j < |d| ensures j < |c| && d[j] == c[j] { ChainUniqueAt(disk, b, d, c, j); }
    assert |c| <= |d| by { if c != [] { assert c[|c| - 1] == d[|c| - 1]; } }
    assert |d| <= |c| by { if d != [] { assert d[|d| - 1] == c[|d| - 1]; } }
  }

  lemma {:induction false} ChainUniqueAt(disk: seq<Sector>, b: u16, c: seq<u16>, d: seq<u16>, j: nat)
    requires IsChain(disk, b, c) && IsChain(disk, b, d) && j < |c|
    ensures j < |d| && c[j] == d[j]
  {
    if j > 0 {
      ChainUniqueAt(disk, b, c, d, j - 1);
      assert After(c, j - 1) == Next(disk[c[j - 1]]) == After(d, j - 1);
    }
  }
}
