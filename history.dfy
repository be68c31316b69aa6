/**
  The plot histories: fixed-size arrays of samples with a fill count. The two
  lattice simulations stop recording once full; the pendulum rolls its window.
*/
module History {

  /**
    Stop-on-full recording: while fewer than |s| samples are held the new one
    goes into slot `count`; once the buffer is full nothing is recorded.
  */
  function Record<T>(s: seq<T>, count: int, v: T): (r: seq<T>)
    requires 0 <= count <= |s|
    ensures |r| == |s|
    ensures count < |s| ==> r[count] == v
    ensures forall k :: 0 <= k < |s| && k != count ==> r[k] == s[k]
    ensures count == |s| ==> r == s
  {
    if count < |s| then s[count := v] else s
  }

  /** The count that goes with Record: one more below capacity, unchanged at it. */
  function Bump(count: int, capacity: int): (c: int)
    requires 0 <= count <= capacity
    ensures 0 <= c <= capacity
    ensures count < capacity ==> c == count + 1
    ensures count == capacity ==> c == capacity
  {
    if count < capacity then count + 1 else count
  }

  /** Recording never disturbs a sample already held. */
  lemma RecordKeepsHeld<T>(s: seq<T>, count: int, v: T, k: int)
    requires 0 <= k < count <= |s|
    ensures Record(s, count, v)[k] == s[k]
  {
  }

  /**
    Roll-left recording: every sample moves one slot towards the front, the
    oldest falls out and the new one takes the last slot.
  */
  function Roll<T>(s: seq<T>, v: T): (r: seq<T>)
    requires |s| > 0
    ensures |r| == |s|
    ensures forall k :: 1 <= k < |s| ==> r[k - 1] == s[k]
    ensures r[|s| - 1] == v
  {
    s[1..] + [v]
  }
}
