/** Runs of a state machine, and what it means that one ends because nothing is ready. */
module Runs {

  function Run<S, E>(step: (S, E) -> S, s: S, events: seq<E>): S {
    if events == [] then s
    else
      var n := |events| - 1;
      step(Run(step, s, events[..n]), events[n])
  }

  lemma {:induction false} RunAppend<S, E>(step: (S, E) -> S, s: S, a: seq<E>, b: seq<E>)
    ensures Run(step, s, a + b) == Run(step, Run(step, s, a), b)
  {
    if b == [] {
      assert a + b == a;
    } else {
      var n := |b| - 1;
      assert (a + b)[..|a| + n] == a + b[..n];
      RunAppend(step, s, a, b[..n]);
    }
  }

  lemma RunOne<S, E>(step: (S, E) -> S, s: S, e: E)
    ensures Run(step, s, [e]) == step(s, e)
  {
    assert [e][..0] == [];
    assert Run(step, s, []) == s;
  }

  /** What an event does, whether it finds that something is not ready, and whether it is one of the events that may come
      after such a one without ending the wait. */
  datatype Machine<!S, !E> = Machine(step: (S, E) -> S, waits: (S, E) -> bool, aside: E -> bool)

  /** The events end with one that finds something not ready, but for those that may come after it. */
  ghost predicate Stuck<S, E>(m: Machine<S, E>, s: S, events: seq<E>) {
    exists k | 0 <= k < |events| ::
      m.waits(Run(m.step, s, events[..k]), events[k]) && forall j | k < j < |events| :: m.aside(events[j])
  }

  lemma StuckNow<S, E>(m: Machine<S, E>, s: S, e: E)
    requires m.waits(s, e)
    ensures Stuck(m, s, [e])
  {
    assert [e][..0] == [];
    assert Run(m.step, s, []) == s;
    assert m.waits(Run(m.step, s, [e][..0]), [e][0]);
  }

  lemma StuckLater<S, E>(m: Machine<S, E>, s: S, a: seq<E>, b: seq<E>)
    requires Stuck(m, Run(m.step, s, a), b)
    ensures Stuck(m, s, a + b)
  {
    hide Run;
    var mid := Run(m.step, s, a);
    var k :| 0 <= k < |b| && m.waits(Run(m.step, mid, b[..k]), b[k]) && forall j | k < j < |b| :: m.aside(b[j]);
    RunAppend(m.step, s, a, b[..k]);
    var events := a + b;
    assert events[..|a| + k] == a + b[..k] && events[|a| + k] == b[k];
    assert forall j | |a| + k < j < |events| :: events[j] == b[j - |a|];
  }

  lemma StaysStuck<S, E>(m: Machine<S, E>, s: S, a: seq<E>, b: seq<E>)
    requires Stuck(m, s, a) && forall j | 0 <= j < |b| :: m.aside(b[j])
    ensures Stuck(m, s, a + b)
  {
    hide Run;
    var k :| 0 <= k < |a| && m.waits(Run(m.step, s, a[..k]), a[k]) && forall j | k < j < |a| :: m.aside(a[j]);
    var events := a + b;
    assert events[k] == a[k] && events[..k] == a[..k];
    assert forall j | |a| <= j < |events| :: events[j] == b[j - |a|];
  }

  function Mapped<E, F>(f: E -> F, events: seq<E>): (r: seq<F>)
    ensures |r| == |events| && forall i | 0 <= i < |r| :: r[i] == f(events[i])
  {
    seq(|events|, i requires 0 <= i < |events| => f(events[i]))
  }

  /** A machine works inside another: what its states are there, and what its events. */
  ghost predicate Embeds<S(!new), E(!new), T, F>(
    m: Machine<S, E>, big: Machine<T, F>, good: S -> bool, put: S -> T, event: E -> F)
  {
    && (forall s, e | good(s) :: good(m.step(s, e)) && put(m.step(s, e)) == big.step(put(s), event(e)))
    && (forall s, e | good(s) && m.waits(s, e) :: big.waits(put(s), event(e)))
    && (forall e | m.aside(e) :: big.aside(event(e)))
  }

  lemma {:induction false} RunEmbedded<S(!new), E(!new), T, F>(
    m: Machine<S, E>, big: Machine<T, F>, good: S -> bool, put: S -> T, event: E -> F, s: S, events: seq<E>)
    requires Embeds(m, big, good, put, event) && good(s)
    ensures good(Run(m.step, s, events))
    ensures Run(big.step, put(s), Mapped(event, events)) == put(Run(m.step, s, events))
  {
    if events != [] {
      var n := |events| - 1;
      RunEmbedded(m, big, good, put, event, s, events[..n]);
      assert Mapped(event, events)[..n] == Mapped(event, events[..n]);
    }
  }

  lemma StuckEmbedded<S(!new), E(!new), T, F>(
    m: Machine<S, E>, big: Machine<T, F>, good: S -> bool, put: S -> T, event: E -> F, s: S, events: seq<E>)
    requires Embeds(m, big, good, put, event) && good(s) && Stuck(m, s, events)
    ensures Stuck(big, put(s), Mapped(event, events))
  {
    hide Run;
    var k :| 0 <= k < |events| && m.waits(Run(m.step, s, events[..k]), events[k])
             && forall j | k < j < |events| :: m.aside(events[j]);
    RunEmbedded(m, big, good, put, event, s, events[..k]);
    var mapped := Mapped(event, events);
    assert mapped[..k] == Mapped(event, events[..k]);
    assert big.waits(Run(big.step, put(s), mapped[..k]), mapped[k]);
  }
}
