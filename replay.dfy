/** The replay buffer of chimera.py's `ResonanceEngine`: a `deque(maxlen=10)`
    of (state prefix, action, reward) entries, one appended per iteration. */
module Replay {
  import opened PyOps

  /** `(state_hash[:8], action_name, f"{total_q:.3f}")`; the reward is kept as
      the number it formats. */
  datatype Memory = Memory(statePrefix: string, action: string, reward: real)

  const ReplayCapacity: nat := 10

  /** `d.append(x)` on a deque with `maxlen`: once full, the oldest entry is
      dropped to make room. */
  function DequeAppend<T>(buf: seq<T>, x: T, maxlen: nat): (r: seq<T>)
    requires |buf| <= maxlen
    ensures |r| <= maxlen
    ensures maxlen > 0 ==> |r| >= 1 && r[|r| - 1] == x
  {
    if maxlen == 0 then []
    else if |buf| < maxlen then buf + [x]
    else buf[1..] + [x]
  }

  /** The last n entries of a history, oldest first. */
  function Recent<T>(history: seq<T>, n: nat): (r: seq<T>)
    ensures |r| == Min(|history|, n)
  {
    if |history| <= n then history else history[|history| - n..]
  }

  /** Appending to a deque that holds the most recent n entries of a history
      gives the most recent n entries of the extended history: the deque never
      holds more than n entries, evicts the oldest first, and keeps order. */
  lemma {:induction false} DequeKeepsRecent<T>(history: seq<T>, x: T, n: nat)
    ensures DequeAppend(Recent(history, n), x, n) == Recent(history + [x], n)
  {
    var h := history + [x];
    if n > 0 && |history| >= n {
      var start := |history| - n;
      assert Recent(history, n)[1..] == history[start + 1..];
      assert h[|h| - n..] == history[start + 1..] + [x];
    }
  }
}
