/**
  The pipeline's idempotent intake, and the worker that feeds it from the queue.

  The intake remembers a bounded number of ids, dropping the oldest. Everything it ever took in is
  either still remembered or was dropped, which bounds how often one id can enter the correlator.
*/
module Pipelines {
  import opened LedgerModel
  import opened Ledgers

  /** What happened to an id in this process, in order. */
  datatype Fact = Took(id: Id) | Applied(id: Id)

  /** How often an id was taken in. */
  ghost function Times(log: seq<Fact>, id: Id): nat {
    if log == [] then 0
    else Times(log[..|log| - 1], id) + (if log[|log| - 1] == Took(id) then 1 else 0)
  }

  ghost function Intakes(log: seq<Fact>): nat {
    if log == [] then 0
    else Intakes(log[..|log| - 1]) + (if log[|log| - 1].Took? then 1 else 0)
  }

  lemma LogMore(log: seq<Fact>, f: Fact, id: Id)
    ensures Times(log + [f], id) == Times(log, id) + (if f == Took(id) then 1 else 0)
    ensures Intakes(log + [f]) == Intakes(log) + (if f.Took? then 1 else 0)
  {
    assert (log + [f])[..|log|] == log;
  }

  lemma {:induction false} TimesPositive(log: seq<Fact>, id: Id)
    ensures Times(log, id) > 0 <==> Took(id) in log
  {
    if log != [] {
      TimesPositive(log[..|log| - 1], id);
      assert log == log[..|log| - 1] + [log[|log| - 1]];
    }
  }

  /** Every applied revision comes after its first version was taken in. */
  ghost predicate InOrder(log: seq<Fact>) {
    forall i :: 0 <= i < |log| && log[i].Applied? ==> Took(log[i].id) in log[..i]
  }

  lemma InOrderMore(log: seq<Fact>, f: Fact)
    requires InOrder(log) && (f.Applied? ==> Took(f.id) in log)
    ensures InOrder(log + [f])
  {
    var more := log + [f];
    forall i | 0 <= i < |more| && more[i].Applied? ensures Took(more[i].id) in more[..i] {
      assert more[..i] == log[..i];
      assert i == |log| ==> log[..i] == log;
    }
  }

  /** Conservation: what was taken in is remembered or was dropped. */
  ghost predicate Conserved(log: seq<Fact>, seen: seq<Id>, dropped: multiset<Id>) {
    forall id :: Times(log, id) == multiset(seen)[id] + dropped[id]
  }

  ghost predicate NoRepeats(seen: seq<Id>) {
    forall i, j :: 0 <= i < j < |seen| ==> seen[i] != seen[j]
  }

  lemma {:induction false} OnceEach(seen: seq<Id>, id: Id)
    requires NoRepeats(seen)
    ensures multiset(seen)[id] == if id in seen then 1 else 0
  {
    if seen != [] {
      var init := seen[..|seen| - 1];
      OnceEach(init, id);
      assert seen == init + [seen[|seen| - 1]];
    }
  }

  /** What becomes of a record that reaches the stages behind the intake. */
  datatype Verdict = Raises | Suppressed | Passes

  class Pipeline {
    /** Ids taken in, oldest first. */
    var seen: seq<Id>
    const maxSeen: nat
    /** Ids handed to the correlator. */
    ghost var entered: multiset<Id>
    ghost var log: seq<Fact>
    ghost var dropped: multiset<Id>

    ghost predicate Valid()
      reads this
    {
      && NoRepeats(seen) && |seen| <= maxSeen && Conserved(log, seen, dropped) && InOrder(log)
      && Intakes(log) == |seen| + |dropped|
      && (dropped != multiset{} ==> |seen| == maxSeen)
      && (forall id :: entered[id] <= Times(log, id))
    }

    constructor (bound: nat)
      ensures Valid() && fresh(this) && maxSeen == bound && log == [] && entered == multiset{}
    {
      seen, maxSeen := [], bound;
      entered, log, dropped := multiset{}, [], multiset{};
      new;
      assert multiset(seen) == multiset{};
    }

    /** An id enters the correlator once, plus once for every time it was dropped from memory. */
    lemma EntersOncePerDrop(id: Id)
      requires Valid()
      ensures entered[id] <= 1 + dropped[id]
    {
      OnceEach(seen, id);
    }

    /** As long as no more than `maxSeen` ids were taken in, every id enters at most once. */
    lemma EntersOnce(id: Id)
      requires Valid() && Intakes(log) <= maxSeen
      ensures dropped == multiset{} && entered[id] <= 1
    {
      EntersOncePerDrop(id);
    }

    /** Remember an id; beyond the bound the oldest are dropped. */
    method Remember(id: Id)
      requires Valid() && id !in seen
      modifies this`seen, this`log, this`dropped
      ensures Valid() && log == old(log) + [Took(id)]
      ensures var all := old(seen) + [id];
        if |all| <= maxSeen then seen == all && dropped == old(dropped)
        else seen == all[1..] && dropped == old(dropped) + multiset{all[0]}
    {
      hide Conserved, NoRepeats, Times, InOrder, Intakes;
      MoreRemembered(log, seen, dropped, id);
      InOrderMore(log, Took(id));
      NeverLess(log, Took(id));
      seen := seen + [id];
      log := log + [Took(id)];
      while |seen| > maxSeen
        invariant log == old(log) + [Took(id)]
        invariant NoRepeats(seen) && Conserved(log, seen, dropped) && |seen| <= maxSeen + 1
        invariant Intakes(log) == |seen| + |dropped|
        invariant (seen == old(seen) + [id] && dropped == old(dropped))
          || (|seen| == maxSeen && seen == (old(seen) + [id])[1..] && dropped == old(dropped) + multiset{(old(seen) + [id])[0]})
        decreases |seen|
      {
        OneDropped(log, seen, dropped);
        dropped := dropped + multiset{seen[0]};
        seen := seen[1..];
      }
    }

    /** One record: taken in unless its id is remembered. */
    method Process(id: Id, verdict: Verdict) returns (raised: bool)
      requires Valid()
      modifies this
      ensures Valid()
      ensures raised <==> id !in old(seen) && verdict == Raises
      ensures id in old(seen) || raised ==> seen == old(seen) && log == old(log) && entered == old(entered) && dropped == old(dropped)
      ensures !(id in old(seen) || raised) ==> log == old(log) + [Took(id)] && (maxSeen > 0 ==> id in seen)
      ensures !(id in old(seen) || raised) && |old(seen)| < maxSeen ==> seen == old(seen) + [id]
      ensures !(id in old(seen) || raised) ==> entered == if verdict == Passes then old(entered) + multiset{id} else old(entered)
    {
      if id in seen {
        return false;
      }
      if verdict == Raises {
        return true;
      }
      Remember(id);
      forall x ensures Times(log, x) == Times(old(log), x) + (if x == id then 1 else 0) {
        LogMore(old(log), Took(id), x);
      }
      if verdict == Passes {
        entered := entered + multiset{id};
      }
      raised := false;
    }

    /** An updated record: refused until the first version was taken in. */
    method Revise(id: Id, verdict: Verdict) returns (raised: bool)
      requires Valid()
      modifies this`log
      ensures Valid()
      ensures raised <==> id !in seen || verdict == Raises
      ensures log == if raised then old(log) else old(log) + [Applied(id)]
    {
      raised := id !in seen || verdict == Raises;
      if !raised {
        OnceEach(seen, id);
        TimesPositive(log, id);
        InOrderMore(log, Applied(id));
        forall x ensures Times(log + [Applied(id)], x) == Times(log, x) {
          LogMore(log, Applied(id), x);
        }
        LogMore(log, Applied(id), id);
        log := log + [Applied(id)];
      }
    }
  }

  lemma NeverLess(log: seq<Fact>, f: Fact)
    ensures forall x :: Times(log, x) <= Times(log + [f], x)
  {
    forall x ensures Times(log, x) <= Times(log + [f], x) {
      LogMore(log, f, x);
    }
  }

  lemma MoreRemembered(log: seq<Fact>, seen: seq<Id>, dropped: multiset<Id>, id: Id)
    requires Conserved(log, seen, dropped) && NoRepeats(seen) && id !in seen
    ensures Conserved(log + [Took(id)], seen + [id], dropped) && NoRepeats(seen + [id])
    ensures Intakes(log + [Took(id)]) == Intakes(log) + 1
  {
    forall x ensures Times(log + [Took(id)], x) == multiset(seen + [id])[x] + dropped[x] {
      LogMore(log, Took(id), x);
    }
    LogMore(log, Took(id), id);
  }

  lemma OneDropped(log: seq<Fact>, seen: seq<Id>, dropped: multiset<Id>)
    requires Conserved(log, seen, dropped) && seen != [] && NoRepeats(seen)
    ensures Conserved(log, seen[1..], dropped + multiset{seen[0]}) && NoRepeats(seen[1..])
  {
    assert seen == [seen[0]] + seen[1..];
  }
}
