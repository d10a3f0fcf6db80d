/** Event-sourced logs in general. A step looks at the log so far and one event, and either appends
    an entry or leaves the log alone. When events can be read back out of entries, the logs that
    runs build are exactly the lawful ones: each entry is what the step makes of its own event. */
module EventLog {
  import opened Options
  import opened Sequences

  function Push<N, E>(step: (seq<N>, E) -> Option<N>, log: seq<N>, event: E): seq<N> {
    match step(log, event)
    case None => log
    case Some(entry) => log + [entry]
  }

  function Run<N, E>(step: (seq<N>, E) -> Option<N>, events: seq<E>): seq<N> {
    if events == [] then [] else Push(step, Run(step, events[..|events| - 1]), events[|events| - 1])
  }

  ghost predicate ReadsBack<N(!new), E(!new)>(step: (seq<N>, E) -> Option<N>, back: N -> E, valid: E -> bool) {
    forall log, event | valid(event) && step(log, event).Some? :: back(step(log, event).value) == event
  }

  ghost predicate AllValid<E>(valid: E -> bool, events: seq<E>) {
    forall i | 0 <= i < |events| :: valid(events[i])
  }

  /** The k-th entry is what the step makes of its own, valid, event after the entries before it. */
  ghost predicate LawfulAt<N, E>(step: (seq<N>, E) -> Option<N>, back: N -> E, valid: E -> bool, log: seq<N>, k: nat)
    requires k < |log|
  {
    valid(back(log[k])) && step(log[..k], back(log[k])) == Some(log[k])
  }

  ghost predicate Lawful<N, E>(step: (seq<N>, E) -> Option<N>, back: N -> E, valid: E -> bool, log: seq<N>) {
    forall k | 0 <= k < |log| :: LawfulAt(step, back, valid, log, k)
  }

  lemma RunPush<N, E>(step: (seq<N>, E) -> Option<N>, events: seq<E>, event: E)
    ensures Run(step, events + [event]) == Push(step, Run(step, events), event)
  {
    TakeFront(events, event);
  }

  lemma LawfulPush<N, E>(step: (seq<N>, E) -> Option<N>, back: N -> E, valid: E -> bool, log: seq<N>, entry: N)
    requires Lawful(step, back, valid, log)
    requires valid(back(entry)) && step(log, back(entry)) == Some(entry)
    ensures Lawful(step, back, valid, log + [entry])
  {
    forall k | 0 <= k < |log + [entry]| ensures LawfulAt(step, back, valid, log + [entry], k) {
      if k < |log| {
        assert LawfulAt(step, back, valid, log, k);
        assert (log + [entry])[..k] == log[..k];
      } else {
        TakeFront(log, entry);
      }
    }
  }

  lemma {:induction false} RunIsLawful<N(!new), E(!new)>(step: (seq<N>, E) -> Option<N>, back: N -> E,
                                                        valid: E -> bool, events: seq<E>)
    requires ReadsBack(step, back, valid) && AllValid(valid, events)
    ensures Lawful(step, back, valid, Run(step, events))
  {
    if events != [] {
      var front, event := events[..|events| - 1], events[|events| - 1];
      RunIsLawful(step, back, valid, front);
      if step(Run(step, front), event).Some? {
        LawfulPush(step, back, valid, Run(step, front), step(Run(step, front), event).value);
      }
    }
  }

  lemma LawfulPrefix<N, E>(step: (seq<N>, E) -> Option<N>, back: N -> E, valid: E -> bool, log: seq<N>, i: nat)
    requires Lawful(step, back, valid, log) && i <= |log|
    ensures Lawful(step, back, valid, log[..i])
  {
    forall k | 0 <= k < i ensures LawfulAt(step, back, valid, log[..i], k) {
      assert LawfulAt(step, back, valid, log, k);
      TakeTake(log, k, i);
    }
  }

  lemma {:induction false} LawfulIsRun<N, E>(step: (seq<N>, E) -> Option<N>, back: N -> E, valid: E -> bool, log: seq<N>)
    requires Lawful(step, back, valid, log)
    ensures AllValid(valid, Map(back, log))
    ensures Run(step, Map(back, log)) == log
  {
    if log == [] {
      assert Map(back, log) == [];
    } else {
      var front, last := log[..|log| - 1], log[|log| - 1];
      assert LawfulAt(step, back, valid, log, |log| - 1);
      LawfulPrefix(step, back, valid, log, |front|);
      LawfulIsRun(step, back, valid, front);
      assert Map(back, log) == Map(back, front) + [back(last)];
      RunPush(step, Map(back, front), back(last));
      SplitLast(log);
    }
  }

  /** Replaying the events read back out of a run's entries rebuilds the run. */
  lemma ReadBackRebuilds<N(!new), E(!new)>(step: (seq<N>, E) -> Option<N>, back: N -> E,
                                           valid: E -> bool, events: seq<E>)
    requires ReadsBack(step, back, valid) && AllValid(valid, events)
    ensures var log := Run(step, events);
      AllValid(valid, Map(back, log)) && Run(step, Map(back, log)) == log
  {
    RunIsLawful(step, back, valid, events);
    LawfulIsRun(step, back, valid, Run(step, events));
  }

  /** A run only ever grows. */
  lemma {:induction false} RunGrows<N, E>(step: (seq<N>, E) -> Option<N>, events: seq<E>, more: seq<E>)
    ensures Run(step, events) <= Run(step, events + more)
  {
    if more == [] {
      assert events + more == events;
    } else {
      var front := more[..|more| - 1];
      RunGrows(step, events, front);
      assert events + more == (events + front) + [more[|more| - 1]];
      RunPush(step, events + front, more[|more| - 1]);
    }
  }

  /** Continuing a run depends on the events before it only through the log they left. */
  lemma {:induction false} SameLogSameFuture<N, E>(step: (seq<N>, E) -> Option<N>, a: seq<E>, b: seq<E>, more: seq<E>)
    requires Run(step, a) == Run(step, b)
    ensures Run(step, a + more) == Run(step, b + more)
  {
    if more == [] {
      assert a + more == a && b + more == b;
    } else {
      var front, last := more[..|more| - 1], more[|more| - 1];
      SameLogSameFuture(step, a, b, front);
      assert a + more == (a + front) + [last] && b + more == (b + front) + [last];
      RunPush(step, a + front, last);
      RunPush(step, b + front, last);
    }
  }

  lemma {:induction false} RunNoLonger<N, E>(step: (seq<N>, E) -> Option<N>, events: seq<E>)
    ensures |Run(step, events)| <= |events|
  {
    if events != [] {
      RunNoLonger(step, events[..|events| - 1]);
    }
  }
}
