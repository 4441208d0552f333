/** Types shared by every module of the model. */
module Prelude {

  datatype Option<+T> = None | Some(value: T) {
    function GetOr(default: T): T {
      match this
      case Some(v) => v
      case None => default
    }
  }

  datatype Result<+T, +E> = Ok(value: T) | Err(error: E)

  const TWO_TO_THE_32: int := 0x1_0000_0000
  const TWO_TO_THE_64: int := 0x1_0000_0000_0000_0000

  /** Fixed-width integers of the source. Every wrap-around is written out where it can happen. */
  type uint8 = x: int | 0 <= x < 0x100
  type uint16 = x: int | 0 <= x < 0x1_0000
  type uint32 = x: int | 0 <= x < 0x1_0000_0000
  type uint64 = x: int | 0 <= x < 0x1_0000_0000_0000_0000

  /** 32-bit increment. */
  function Next32(x: uint32): uint32 {
    if x == 0xFFFF_FFFF then 0 else x + 1
  }

  function AsCount(b: bool): nat {
    if b then 1 else 0
  }

  /** All but the last element. */
  function Front<T>(s: seq<T>): seq<T>
    requires s != []
  {
    s[..|s| - 1]
  }

  function Last<T>(s: seq<T>): T
    requires s != []
  {
    s[|s| - 1]
  }

  /** If each step from a state that meets `holds` leads to one that meets it exactly when the step
      `fits`, a run that meets it at `j` stays within it exactly when all its steps from there on fit. */
  lemma {:induction false} StepwiseExactly<S, A>(
      ss: seq<S>, actions: seq<A>, holds: S -> bool, fits: (S, A) -> bool, j: nat, i: nat)
    requires |ss| == |actions| + 1 && j <= i <= |actions| && holds(ss[j])
    requires forall k | j <= k < i && holds(ss[k]) :: holds(ss[k + 1]) <==> fits(ss[k], actions[k])
    ensures (forall k | j <= k <= i :: holds(ss[k])) <==> (forall k | j <= k < i :: fits(ss[k], actions[k]))
  {
    if i > j {
      var h := i - 1;
      StepwiseExactly(ss, actions, holds, fits, j, h);
      assert (forall k | j <= k <= i :: holds(ss[k])) <==> (forall k | j <= k <= h :: holds(ss[k])) && holds(ss[i]);
      assert (forall k | j <= k < i :: fits(ss[k], actions[k])) <==>
        (forall k | j <= k < h :: fits(ss[k], actions[k])) && fits(ss[h], actions[h]);
      assert holds(ss[h]) ==> (holds(ss[h + 1]) <==> fits(ss[h], actions[h]));
    }
  }

  lemma SubsetSize<T>(a: set<T>, b: set<T>)
    requires a <= b
    ensures |a| <= |b| && (a != b ==> |a| < |b|)
  {
    assert |b| == |a| + |b - a| by { assert b == a + (b - a); }
    if a != b {
      var x :| x in b && x !in a;
      assert b - a != {};
    }
  }

  ghost function Image<K, V>(m: map<K, V>, s: set<K>): set<V>
    requires s <= m.Keys
  {
    set k | k in s :: m[k]
  }

  /** An injective image is as large as its set. */
  lemma {:induction false} ImageSize<K, V>(m: map<K, V>, s: set<K>)
    requires s <= m.Keys && forall a, b | a in s && b in s && m[a] == m[b] :: a == b
    ensures |Image(m, s)| == |s|
  {
    if s != {} {
      var x :| x in s;
      var rest := s - {x};
      ImageSize(m, rest);
      assert Image(m, s) == Image(m, rest) + {m[x]};
    }
  }
}
