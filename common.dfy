/** Values shared by the simulation modules: optional values, three.js-style
    vectors, and JavaScript's `Array.prototype.filter`. */
module Common {

  /** A value that may be absent (`undefined`/`null` in the game code). */
  datatype Option<T> = None | Some(value: T) {
    function GetOr(default: T): T {
      if Some? then value else default
    }

    /** The value as a list of zero or one elements. */
    function AsSeq(): seq<T> {
      if Some? then [value] else []
    }
  }

  /** A point or displacement in world space (a `THREE.Vector3`), y is up. */
  datatype Vec3 = Vec3(x: real, y: real, z: real)

  function Add(a: Vec3, b: Vec3): Vec3 {
    Vec3(a.x + b.x, a.y + b.y, a.z + b.z)
  }

  function Scale(a: Vec3, k: real): Vec3 {
    Vec3(a.x * k, a.y * k, a.z * k)
  }

  /** Squared Euclidean distance (`distanceTo` squared). */
  function DistanceSquared(a: Vec3, b: Vec3): real {
    (a.x - b.x) * (a.x - b.x) + (a.y - b.y) * (a.y - b.y) + (a.z - b.z) * (a.z - b.z)
  }

  /** `a` can be obtained from `b` by deleting elements (order is kept). */
  ghost predicate IsSubsequence<T>(a: seq<T>, b: seq<T>)
    decreases |b|
  {
    if a == [] then true
    else if b == [] then false
    else (a[0] == b[0] && IsSubsequence(a[1..], b[1..])) || IsSubsequence(a, b[1..])
  }

  /** `s.filter(keep)`: the elements of `s` that satisfy `keep`, in their order. */
  function Filter<T(==)>(s: seq<T>, keep: T -> bool): (r: seq<T>)
    ensures |r| <= |s|
    ensures forall x :: x in r ==> x in s && keep(x)
    ensures forall x :: x in s && keep(x) ==> x in r
    ensures IsSubsequence(r, s)
  {
    if s == [] then []
    else
      var rest := Filter(s[1..], keep);
      assert forall x :: x in s ==> x == s[0] || x in s[1..];
      if keep(s[0]) then [s[0]] + rest else rest
  }

  /** A filter keeps every copy of a kept element and none of a dropped one. */
  lemma {:induction false} FilterCounts<T>(s: seq<T>, keep: T -> bool, x: T)
    ensures multiset(Filter(s, keep))[x] == if keep(x) then multiset(s)[x] else 0
  {
    if s != [] {
      FilterCounts(s[1..], keep, x);
      assert s == [s[0]] + s[1..];
      assert multiset(s) == multiset{s[0]} + multiset(s[1..]);
    }
  }

  /** Every sequence is a subsequence of itself. */
  lemma {:induction false} SubsequenceReflexive<T>(s: seq<T>)
    ensures IsSubsequence(s, s)
  {
    if s != [] {
      SubsequenceReflexive(s[1..]);
    }
  }

  /** A subsequence holds only elements of the sequence it came from. */
  lemma {:induction false} SubsequenceMembers<T>(a: seq<T>, b: seq<T>, x: T)
    requires IsSubsequence(a, b) && x in a
    ensures x in b
    decreases |b|
  {
    if a[0] == b[0] && IsSubsequence(a[1..], b[1..]) {
      if x != a[0] {
        assert x in a[1..];
        SubsequenceMembers(a[1..], b[1..], x);
      }
    } else {
      SubsequenceMembers(a, b[1..], x);
    }
  }

  /** `Math.floor(roll * n)` for a `Math.random()` draw `roll`: an index below `n`. */
  function PickIndex(roll: real, n: nat): (i: nat)
    requires 0.0 <= roll < 1.0 && n > 0
    ensures i < n
  {
    assert roll * n as real < n as real by {
      assert n as real - roll * n as real == n as real * (1.0 - roll);
    }
    (roll * n as real).Floor
  }

  /** The last `n` elements of `s` (all of them when there are fewer). */
  function LastN<T>(s: seq<T>, n: nat): (r: seq<T>)
    ensures |r| == if |s| <= n then |s| else n
  {
    if |s| <= n then s else s[|s| - n..]
  }

  /** The last `n` elements are a suffix: the list is whatever was dropped
      followed by them. */
  lemma LastNIsSuffix<T>(s: seq<T>, n: nat)
    ensures LastN(s, n) == s[|s| - |LastN(s, n)|..]
    ensures s == s[..|s| - |LastN(s, n)|] + LastN(s, n)
  {
  }

  /** A push onto a bounded window followed by the eviction of the oldest
      element when the window is over its limit (`push` then `shift`). */
  function Slide<T>(window: seq<T>, x: T, limit: nat): seq<T> {
    var w := window + [x];
    if |w| > limit then w[1..] else w
  }

  /** The window is FIFO: sliding an element into the window of a history gives
      the window of the history extended by that element. */
  lemma {:induction false} SlideKeepsLatest<T>(history: seq<T>, x: T, limit: nat)
    requires limit >= 1
    ensures Slide(LastN(history, limit), x, limit) == LastN(history + [x], limit)
  {
    var h := history + [x];
    if |history| < limit {
      assert LastN(history, limit) == history;
    } else {
      var w := LastN(history, limit) + [x];
      assert |w| == limit + 1;
      assert w[1..] == h[|h| - limit..];
    }
  }
}
