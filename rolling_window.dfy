/** The live chart's bounded window: each new point is appended and then only
    the newest `MaxDataPoints` are kept (`[...prev, point]` then `slice(-100)`). */
module RollingWindow {

  const MaxDataPoints: nat := 100

  /** The last `n` elements of `s`, or all of `s` when it is shorter. */
  function LastN<T>(s: seq<T>, n: nat): (r: seq<T>)
    ensures |r| == if |s| < n then |s| else n
  {
    if |s| <= n then s else s[|s| - n..]
  }

  /** The window after one point arrives. */
  function Push<T>(prev: seq<T>, point: T): (next: seq<T>)
    ensures |next| <= MaxDataPoints
    ensures next == LastN(prev + [point], MaxDataPoints)
  {
    var updated := prev + [point];
    if |updated| > MaxDataPoints then updated[|updated| - MaxDataPoints..] else updated
  }

  /** A push ends with the new point and otherwise keeps a suffix of the old
      window in its order: eviction only ever drops from the front. */
  lemma PushKeepsOrder<T>(prev: seq<T>, point: T)
    ensures var next := Push(prev, point);
            |next| >= 1 && next[|next| - 1] == point &&
            next[..|next| - 1] == prev[|prev| - (|next| - 1)..]
  {
    var next := Push(prev, point);
    var updated := prev + [point];
    assert next == updated[|updated| - |next|..];
    assert next[..|next| - 1] == updated[|updated| - |next|..|updated| - 1];
    assert updated[..|updated| - 1] == prev;
  }

  /** Below capacity a push appends and evicts nothing; at capacity it evicts
      exactly the oldest point. */
  lemma PushBelowAndAtCapacity<T>(prev: seq<T>, point: T)
    ensures |prev| < MaxDataPoints ==> Push(prev, point) == prev + [point]
    ensures |prev| == MaxDataPoints ==> Push(prev, point) == prev[1..] + [point]
  {
    if |prev| == MaxDataPoints {
      assert (prev + [point])[1..] == prev[1..] + [point];
    }
  }

  /** The window after a whole arrival sequence, starting from `start`. */
  function PushAll<T>(start: seq<T>, points: seq<T>): (w: seq<T>)
    decreases |points|
  {
    if points == [] then start else Push(PushAll(start, points[..|points| - 1]), points[|points| - 1])
  }

  /** From an empty window, any arrival sequence leaves exactly its last
      min(k, 100) points, oldest first. */
  lemma {:induction false} PushAllIsLastN<T>(points: seq<T>)
    ensures PushAll([], points) == LastN(points, MaxDataPoints)
  {
    if points != [] {
      var init := points[..|points| - 1];
      var p := points[|points| - 1];
      PushAllIsLastN(init);
      LastNOfAppend(init, p, MaxDataPoints);
      assert init + [p] == points;
    }
  }

  /** Taking the last `n` commutes with appending one element. */
  lemma LastNOfAppend<T>(s: seq<T>, x: T, n: nat)
    ensures LastN(LastN(s, n) + [x], n) == LastN(s + [x], n)
  {
    if |s| > n {
      var t := s[|s| - n..];
      assert (t + [x])[|t + [x]| - n..] == (s + [x])[|s + [x]| - n..];
    }
  }
}
