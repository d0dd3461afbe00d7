/** What the funnel's chain of Step CTEs computes over the scoped events
    (`SessionActions`). Step 1 takes, per session, the earliest event that
    matches the first step's condition; Step k+1 takes, for a session in
    Step k, the earliest event matching step k+1's condition strictly after
    Step k's time. Conditions are given as predicates on events. */
module FunnelSemantics {
  import opened Util
  import opened Events
  import Sessions

  /** e matches cond and, when a bound is given, happens strictly after it. */
  predicate Qualifies(e: Event, cond: Event -> bool, after: Option<int>)
  {
    cond(e) && (after.None? || e.timestamp > after.value)
  }

  /** `min(timestamp)` of the events that qualify, or None when none does. */
  function FirstMatchAfter(evs: seq<Event>, cond: Event -> bool, after: Option<int>): (r: Option<int>)
    ensures r.None? <==> forall i :: 0 <= i < |evs| ==> !Qualifies(evs[i], cond, after)
    ensures r.Some? ==> exists i :: 0 <= i < |evs| && Qualifies(evs[i], cond, after) && evs[i].timestamp == r.value
    ensures r.Some? ==> forall i :: 0 <= i < |evs| && Qualifies(evs[i], cond, after) ==> r.value <= evs[i].timestamp
    decreases |evs|
  {
    if |evs| == 0 then None
    else
      var init := evs[..|evs| - 1];
      var last := evs[|evs| - 1];
      assert forall i :: 0 <= i < |init| ==> init[i] == evs[i];
      var prev := FirstMatchAfter(init, cond, after);
      if !Qualifies(last, cond, after) then prev
      else if prev.Some? && prev.value <= last.timestamp then prev
      else Some(last.timestamp)
  }

  /** `step_time` of Step k for one session's events, or None when the
      session is not in Step k. */
  function StepTime(conds: seq<Event -> bool>, k: nat, evs: seq<Event>): Option<int>
    requires 1 <= k <= |conds|
    decreases k
  {
    if k == 1 then FirstMatchAfter(evs, conds[0], None)
    else
      match StepTime(conds, k - 1, evs)
      case None => None
      case Some(t) => FirstMatchAfter(evs, conds[k - 1], Some(t))
  }

  /** A session in Step k+1 is in Step k, and its Step k+1 time is strictly
      later than its Step k time. */
  lemma StepTimesIncrease(conds: seq<Event -> bool>, k: nat, evs: seq<Event>)
    requires 1 <= k < |conds|
    ensures StepTime(conds, k + 1, evs).Some? ==>
              StepTime(conds, k, evs).Some? && StepTime(conds, k, evs).value < StepTime(conds, k + 1, evs).value
  {
  }

  /** Reference meaning: event e can be the k-th event of a chain of events
      e1, …, ek of the session, each matching its step's condition, with
      strictly increasing timestamps. */
  predicate CanEndChain(conds: seq<Event -> bool>, k: nat, evs: seq<Event>, e: Event)
    requires 1 <= k <= |conds|
    decreases k
  {
    && conds[k - 1](e)
    && (k == 1 || exists i :: 0 <= i < |evs| && CanEndChain(conds, k - 1, evs, evs[i]) && evs[i].timestamp < e.timestamp)
  }

  /** Taking the earliest match at every step loses nothing: the session is
      in Step k exactly when some chain of its events completes steps 1..k in
      strictly increasing time, and Step k's time is the earliest time at
      which such a chain can end. */
  lemma {:induction false} GreedyChainIsOptimal(conds: seq<Event -> bool>, k: nat, evs: seq<Event>)
    requires 1 <= k <= |conds|
    ensures StepTime(conds, k, evs).None? <==> forall i :: 0 <= i < |evs| ==> !CanEndChain(conds, k, evs, evs[i])
    ensures StepTime(conds, k, evs).Some? ==>
              && (exists i :: 0 <= i < |evs| && CanEndChain(conds, k, evs, evs[i])
                              && evs[i].timestamp == StepTime(conds, k, evs).value)
              && (forall i :: 0 <= i < |evs| && CanEndChain(conds, k, evs, evs[i])
                              ==> StepTime(conds, k, evs).value <= evs[i].timestamp)
    decreases k
  {
    if k == 1 {
      assert forall i :: 0 <= i < |evs| ==>
        (CanEndChain(conds, 1, evs, evs[i]) <==> Qualifies(evs[i], conds[0], None));
    } else {
      GreedyChainIsOptimal(conds, k - 1, evs);
      var prev := StepTime(conds, k - 1, evs);
      if prev.None? {
        assert forall i :: 0 <= i < |evs| ==> !CanEndChain(conds, k, evs, evs[i]);
      } else {
        var m := prev.value;
        forall i | 0 <= i < |evs|
          ensures CanEndChain(conds, k, evs, evs[i]) <==> Qualifies(evs[i], conds[k - 1], Some(m))
        {
          if Qualifies(evs[i], conds[k - 1], Some(m)) {
            var j :| 0 <= j < |evs| && CanEndChain(conds, k - 1, evs, evs[j]) && evs[j].timestamp == m;
            assert CanEndChain(conds, k, evs, evs[i]);
          }
        }
      }
    }
  }

  /** The sessions of Step k: those whose own events reach step k. */
  function StepSessions(conds: seq<Event -> bool>, k: nat, actions: seq<Event>): set<string>
    requires 1 <= k <= |conds|
  {
    set i | 0 <= i < |actions|
            && StepTime(conds, k, Sessions.GroupOf(actions, Sessions.SessionKey, actions[i].sessionId)).Some?
          :: actions[i].sessionId
  }

  /** Step k+1's sessions are among Step k's. */
  lemma StepSessionsNested(conds: seq<Event -> bool>, k: nat, actions: seq<Event>)
    requires 1 <= k < |conds|
    ensures StepSessions(conds, k + 1, actions) <= StepSessions(conds, k, actions)
  {
    forall s | s in StepSessions(conds, k + 1, actions)
      ensures s in StepSessions(conds, k, actions)
    {
      var i :| 0 <= i < |actions| && actions[i].sessionId == s
               && StepTime(conds, k + 1, Sessions.GroupOf(actions, Sessions.SessionKey, s)).Some?;
      StepTimesIncrease(conds, k, Sessions.GroupOf(actions, Sessions.SessionKey, s));
    }
  }

  /** The session s has events among the actions and a chain of them
      completes steps 1..k. */
  predicate CompletesSteps(conds: seq<Event -> bool>, k: nat, actions: seq<Event>, s: string)
    requires 1 <= k <= |conds|
  {
    var g := Sessions.GroupOf(actions, Sessions.SessionKey, s);
    |g| > 0 && exists i :: 0 <= i < |g| && CanEndChain(conds, k, g, g[i])
  }

  /** Step k holds exactly the sessions that complete steps 1..k. */
  lemma StepSessionsMeaning(conds: seq<Event -> bool>, k: nat, actions: seq<Event>, s: string)
    requires 1 <= k <= |conds|
    ensures s in StepSessions(conds, k, actions) <==> CompletesSteps(conds, k, actions, s)
  {
    var g := Sessions.GroupOf(actions, Sessions.SessionKey, s);
    GreedyChainIsOptimal(conds, k, g);
    if CompletesSteps(conds, k, actions, s) {
      CompletingSessionListed(conds, k, actions, s);
    }
    if s in StepSessions(conds, k, actions) {
      ListedSessionHasEvents(conds, k, actions, s);
    }
  }

  /** A session with events whose own events reach step k is in Step k. */
  lemma CompletingSessionListed(conds: seq<Event -> bool>, k: nat, actions: seq<Event>, s: string)
    requires 1 <= k <= |conds|
    requires |Sessions.GroupOf(actions, Sessions.SessionKey, s)| > 0
    requires StepTime(conds, k, Sessions.GroupOf(actions, Sessions.SessionKey, s)).Some?
    ensures s in StepSessions(conds, k, actions)
  {
    var g := Sessions.GroupOf(actions, Sessions.SessionKey, s);
    assert g[0] in g;
    var i :| 0 <= i < |actions| && actions[i] == g[0];
    assert actions[i].sessionId == s;
  }

  /** A session in Step k has events, and they reach step k. */
  lemma ListedSessionHasEvents(conds: seq<Event -> bool>, k: nat, actions: seq<Event>, s: string)
    requires 1 <= k <= |conds|
    requires s in StepSessions(conds, k, actions)
    ensures |Sessions.GroupOf(actions, Sessions.SessionKey, s)| > 0
    ensures StepTime(conds, k, Sessions.GroupOf(actions, Sessions.SessionKey, s)).Some?
  {
    var i :| 0 <= i < |actions| && actions[i].sessionId == s
             && StepTime(conds, k, Sessions.GroupOf(actions, Sessions.SessionKey, actions[i].sessionId)).Some?;
    assert actions[i] in Sessions.GroupOf(actions, Sessions.SessionKey, s);
  }

  datatype Mode = Reached | Dropped

  /** `TargetSessions`: Step n for reached; Step n minus Step n+1 for dropped. */
  function TargetSessions(conds: seq<Event -> bool>, mode: Mode, n: nat, actions: seq<Event>): set<string>
    requires 1 <= n <= |conds|
    requires mode == Dropped ==> n < |conds|
  {
    match mode
    case Reached => StepSessions(conds, n, actions)
    case Dropped => StepSessions(conds, n, actions) - StepSessions(conds, n + 1, actions)
  }

  /** The sessions that reached step n split into those that went on to step
      n+1 and those that dropped off at step n, with no overlap. */
  lemma ReachedSplitsIntoNextAndDropped(conds: seq<Event -> bool>, n: nat, actions: seq<Event>)
    requires 1 <= n < |conds|
    ensures TargetSessions(conds, Reached, n, actions)
         == TargetSessions(conds, Reached, n + 1, actions) + TargetSessions(conds, Dropped, n, actions)
    ensures TargetSessions(conds, Reached, n + 1, actions) * TargetSessions(conds, Dropped, n, actions) == {}
  {
    StepSessionsNested(conds, n, actions);
  }

  /** A dropped session completes steps 1..n but no chain of its events
      completes steps 1..n+1. */
  lemma DroppedMeaning(conds: seq<Event -> bool>, n: nat, actions: seq<Event>, s: string)
    requires 1 <= n < |conds|
    ensures s in TargetSessions(conds, Dropped, n, actions)
        <==> CompletesSteps(conds, n, actions, s) && !CompletesSteps(conds, n + 1, actions, s)
  {
    StepSessionsMeaning(conds, n, actions, s);
    StepSessionsMeaning(conds, n + 1, actions, s);
    DifferenceMember(StepSessions(conds, n, actions), StepSessions(conds, n + 1, actions), s,
                     CompletesSteps(conds, n, actions, s), CompletesSteps(conds, n + 1, actions, s));
  }

  lemma DifferenceMember(a: set<string>, b: set<string>, s: string, p: bool, q: bool)
    requires s in a <==> p
    requires s in b <==> q
    ensures s in a - b <==> p && !q
  {
  }
}
