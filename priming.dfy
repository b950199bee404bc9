/**
 * The priming countdown both ingest loops run after each chunk
 * (src/input.rs:97-109, src/main.rs:235-244): while the latch
 * `should_restart` is set, a positive `count_down` is decremented; the chunk
 * that finds it at 0 sends `Start` downstream and clears the latch.
 */
module Priming {

  datatype Primer = Primer(countDown: nat, shouldRestart: bool)

  /** The primer after one more chunk, and whether that chunk sends `Start`. */
  function Tick(p: Primer): (r: (Primer, bool))
    ensures r.1 <==> p.shouldRestart && p.countDown == 0
    ensures r.1 ==> r.0 == Primer(0, false)
    ensures !r.1 ==> r.0.shouldRestart == p.shouldRestart
    ensures r.0.countDown <= p.countDown
  {
    if !p.shouldRestart then (p, false)
    else if p.countDown == 0 then (Primer(0, false), true)
    else (Primer(p.countDown - 1, true), false)
  }

  /** The primer after `k` chunks, and how many of them sent `Start`. */
  function Ticks(p: Primer, k: nat): (Primer, nat)
    decreases k
  {
    if k == 0 then (p, 0)
    else
      var (q, fired) := Tick(p);
      var (q', n) := Ticks(q, k - 1);
      (q', n + if fired then 1 else 0)
  }

  /** The primer after `k > 0` chunks is the primer after the first, then `k - 1` more. */
  lemma TicksStep(p: Primer, k: nat)
    requires k > 0
    ensures Ticks(p, k).0 == Ticks(Tick(p).0, k - 1).0
  {
  }

  /**
   * Armed with `count_down == c`, the latch sends exactly one `Start`, on chunk
   * c + 1: after k <= c chunks nothing was sent, after any k > c exactly one.
   */
  lemma {:induction false} FiresOnce(c: nat, k: nat)
    ensures Ticks(Primer(c, true), k) == if k <= c then (Primer(c - k, true), 0) else (Primer(0, false), 1)
  {
    if k > 0 {
      if c == 0 {
        QuietOnceFired(k - 1);
      } else {
        FiresOnce(c - 1, k - 1);
      }
    }
  }

  /** Once the latch is clear nothing is ever sent again. */
  lemma {:induction false} QuietOnceFired(k: nat)
    ensures Ticks(Primer(0, false), k) == (Primer(0, false), 0)
  {
    if k > 0 {
      QuietOnceFired(k - 1);
    }
  }

  /** The chunk that sends `Start` is chunk number c + 1, and no other. */
  lemma FiresOnChunk(c: nat, k: nat)
    ensures Tick(Ticks(Primer(c, true), k).0).1 <==> k == c
  {
    FiresOnce(c, k);
  }

  /** Counting `a` chunks and then `b` more is counting `a + b` chunks. */
  lemma {:induction false} TicksAdd(p: Primer, a: nat, b: nat)
    ensures Ticks(p, a + b) == (Ticks(Ticks(p, a).0, b).0, Ticks(p, a).1 + Ticks(Ticks(p, a).0, b).1)
    decreases a
  {
    if a > 0 {
      TicksAdd(Tick(p).0, a - 1, b);
    }
  }
}
