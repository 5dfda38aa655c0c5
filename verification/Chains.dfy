/** Dependency chains: cutting and joining them. */
module Chains {
  import opened JobFlows

  lemma ChainTail(jf: JobFlowValue, p: seq<string>)
    requires Chain(jf, p) && |p| > 1
    ensures Chain(jf, p[1..]) && DependsOn(jf, p[0], p[1])
  {
    ChainPiece(jf, p, 1, |p|);
    assert p[1..] == p[1..|p|];
    assert DependsOn(jf, p[0], p[0 + 1]);
  }

  /** A piece of a chain is a chain. */
  lemma ChainPiece(jf: JobFlowValue, p: seq<string>, i: nat, j: nat)
    requires Chain(jf, p) && i < j <= |p|
    ensures Chain(jf, p[i..j])
  {
    forall n | 0 <= n < j - i - 1
      ensures DependsOn(jf, p[i..j][n], p[i..j][n + 1])
    {
      assert DependsOn(jf, p[i + n], p[i + n + 1]);
    }
  }

  lemma ChainJoin(jf: JobFlowValue, p: seq<string>, q: seq<string>)
    requires Chain(jf, p) && Chain(jf, q) && DependsOn(jf, p[|p| - 1], q[0])
    ensures Chain(jf, p + q)
  {
    forall n | 0 <= n < |p + q| - 1
      ensures DependsOn(jf, (p + q)[n], (p + q)[n + 1])
    {
      if n < |p| - 1 {
        assert DependsOn(jf, p[n], p[n + 1]);
      } else if n > |p| - 1 {
        assert DependsOn(jf, q[n - |p|], q[n - |p| + 1]);
      }
    }
  }

  lemma ChainCons(jf: JobFlowValue, x: string, p: seq<string>)
    requires Chain(jf, p) && DependsOn(jf, x, p[0])
    ensures Chain(jf, [x] + p)
  {
    ChainJoin(jf, [x], p);
  }

  /** From the second flow of a chain that meets itself one can walk the cycle and meet it again. */
  lemma Lap(jf: JobFlowValue, p: seq<string>, i: nat, j: nat) returns (lap: seq<string>)
    requires Chain(jf, p) && i < j < |p| && p[i] == p[j]
    ensures Chain(jf, lap) && lap[0] == p[1]
    ensures exists m, n :: 0 <= m < n < |lap| && lap[m] == lap[n]
  {
    ChainPiece(jf, p, 1, j + 1);
    ChainPiece(jf, p, i + 1, j + 1);
    var a, b := p[1..j + 1], p[i + 1..j + 1];
    assert DependsOn(jf, p[i], p[i + 1]);
    ChainJoin(jf, a, b);
    lap := a + b;
    assert lap[j - 1] == p[j] == lap[|lap| - 1];
  }
}
