/** Exactly when the first acknowledgement of a restore can be trusted. */
module Handshake {
  import opened Objects
  import opened Instructions
  import opened Protocol
  import opened Safety
  import opened Guarantees

  /** What can happen to a machine while the kill-all plan is handed out. */
  datatype Moves = Done | Acts(act: Act, after: Moves) | Kills(rest: Moves)

  predicate Possible(n: Node, m: Moves)
    decreases m
  {
    match m
    case Done => true
    case Acts(a, after) => CanAct(n, a) && Possible(AfterAct(n, a), after)
    case Kills(rest) => PlanOf(n) != Some(Kill()) && Possible(AfterWrite(n, Kill()), rest)
  }

  function Outcome(n: Node, m: Moves): Node
    requires Possible(n, m)
    decreases m
  {
    match m
    case Done => n
    case Acts(a, after) => Outcome(AfterAct(n, a), after)
    case Kills(rest) => Outcome(AfterWrite(n, Kill()), rest)
  }

  /** What the controller concludes from an acknowledged kill-all. */
  predicate Trustworthy(n: Node) {
    Holds(n, Kill()) ==> n.work.None? && !n.host.running
  }

  /** The history fields describe the machine as it is. */
  predicate Described(n: Node) {
    Tracked(n) && (n.work.Some? ==> n.attempt == Some(n.work.value.plan))
  }

  lemma MoveKeepsQuiet(n: Node, a: Act)
    requires Tracked(n) && Quiet(n)
    ensures CanAct(n, a) ==> Tracked(AfterAct(n, a)) && Quiet(AfterAct(n, a))
    ensures PlanOf(n) != Some(Kill()) ==> Tracked(AfterWrite(n, Kill())) && Quiet(AfterWrite(n, Kill()))
  {
    if CanAct(n, a) {
      ActTracked(n, a);
      if a.Report? && n.work.value.plan == Kill() {
        ReportExecutes(n, Kill());
        KillEffect(n.base);
      }
    }
    WriteTracked(n, Kill());
  }

  lemma {:induction false} QuietStaysTrustworthy(n: Node, m: Moves)
    requires Tracked(n) && Quiet(n) && Possible(n, m)
    ensures Trustworthy(Outcome(n, m))
    decreases m
  {
    match m
    case Done =>
    case Acts(a, after) =>
      MoveKeepsQuiet(n, a);
      QuietStaysTrustworthy(AfterAct(n, a), after);
    case Kills(rest) =>
      MoveKeepsQuiet(n, Pickup);
      QuietStaysTrustworthy(AfterWrite(n, Kill()), rest);
  }

  /** The write that completes a bad acknowledgement. */
  function WriteIfMissing(n: Node): Moves {
    if PlanOf(n) == Some(Kill()) then Done else Kills(Done)
  }

  lemma LoudIsBroken(n: Node) returns (m: Moves)
    requires Described(n) && SumOf(n) == HexSha(Kill()) && !Quiet(n)
    ensures Possible(n, m) && !Trustworthy(Outcome(n, m))
  {
    if n.work.Some? || n.host.running {
      m := WriteIfMissing(n);
    } else {
      var p := AfterAct(n, Pickup);
      m := Acts(Pickup, Kills(Done));
      assert Outcome(p, Kills(Done)) == AfterWrite(p, Kill());
    }
  }

  lemma StaleKillIsBroken(n: Node) returns (m: Moves)
    requires Described(n) && SumOf(n) != HexSha(Kill()) && !Quiet(n)
    ensures Possible(n, m) && !Trustworthy(Outcome(n, m))
  {
    var ran := if n.work.value.pc == 0 then AfterAct(n, Execute) else n;
    var reported := AfterAct(ran, Report);
    var rest := LoudIsBroken(reported) by {
      MoveKeepsDescribed(n, Execute);
      MoveKeepsDescribed(ran, Report);
    }
    m := Acts(Report, rest);
    if n.work.value.pc == 0 {
      m := Acts(Execute, m);
    }
  }

  lemma MoveKeepsDescribed(n: Node, a: Act)
    requires Described(n)
    ensures CanAct(n, a) ==> Described(AfterAct(n, a))
  {
    if CanAct(n, a) {
      ActTracked(n, a);
    }
  }

  /** An acknowledged kill-all can be trusted, whatever the agent does in between, if
      and only if the machine was handed over quiet. In particular a restore created
      over one that was abandoned half way, with another plan still pending behind an
      old kill-all checksum, takes a working machine for a stopped one. */
  lemma KillHandshakeExact(n: Node)
    requires Described(n)
    ensures Quiet(n) <==> forall m :: Possible(n, m) ==> Trustworthy(Outcome(n, m))
  {
    if Quiet(n) {
      forall m | Possible(n, m) ensures Trustworthy(Outcome(n, m)) {
        QuietStaysTrustworthy(n, m);
      }
    } else if SumOf(n) == HexSha(Kill()) {
      var m := LoudIsBroken(n);
      assert Possible(n, m);
    } else {
      var m := StaleKillIsBroken(n);
      assert Possible(n, m);
    }
  }

  // ---- From one restore to the next -----------------------------------------------------

  /** The same machine with a new restore's empty history. A kill-all that is being
      executed stays on record: the next restore will wait for it. */
  function HandedOver(n: Node): Node {
    if n.work.Some? && n.work.value.plan == Kill() then n.(done := [], written := [])
    else n.(attempt := None, base := n.host, cuts := [], done := [], written := [])
  }

  /** A new restore object over the machines as they are now. */
  function NextRestore(s: State, restore: RestoreObject): State {
    s.(restore := restore, version := 0, nodes := map k | k in s.nodes :: HandedOver(s.nodes[k]))
  }

  /** What anybody can read off the plan secret: another plan waits behind the checksum of
      an old kill-all. */
  predicate Misleading(n: Node) {
    SumOf(n) == HexSha(Kill()) && PlanOf(n).Some? && PlanOf(n) != Some(Kill())
  }

  /** In every reachable state of a restore, wherever it is abandoned, a machine is fit for
      another restore if and only if its secret is not misleading; and if it is, the agent
      can make moves after which a kill-all counts as done on a machine that is at work. */
  lemma MisleadingIsExact(c: Scope, t: Trace, k: Key)
    requires IsRun(true, c, t) && k in c.keys
    ensures k in Last(t).nodes
    ensures var n := Last(t).nodes[k];
            && Tracked(n) && (Quiet(n) <==> !Misleading(n))
            && (Misleading(n) <==> exists m :: Possible(n, m) && !Trustworthy(Outcome(n, m)))
  {
    RunKeepsInv(c, t);
    PlansDiffer(c);
    assert NodeInv(c, Last(t), k);
    var n := Last(t).nodes[k];
    if Misleading(n) {
      KillHandshakeExact(n);
    } else {
      forall m | Possible(n, m) ensures Trustworthy(Outcome(n, m)) {
        QuietStaysTrustworthy(n, m);
      }
    }
  }

  /** These are the machines with a restore or a joining plan still to be acknowledged. */
  lemma WhenMisleading(c: Scope, t: Trace, k: Key)
    requires IsRun(true, c, t) && k in c.keys
    ensures k in Last(t).nodes
    ensures var n := Last(t).nodes[k];
            Misleading(n) <==>
              && !Early(Last(t).restore.status.phase)
              && ((PlanOf(n) == Some(Recover(c)) && !Holds(n, Recover(c)))
                  || (PlanOf(n) == Some(Join(c)) && !Holds(n, Join(c))))
  {
    RunKeepsInv(c, t);
    PlansDiffer(c);
    assert NodeInv(c, Last(t), k);
  }

  lemma HandedOverIsNew(n: Node)
    requires Tracked(n)
    ensures NewNode(HandedOver(n)) <==> Quiet(n)
  {
  }

  /** Another restore, from any backup, may start over these machines if and only if none
      of its machines has a misleading secret. */
  lemma FreshStartExact(c: Scope, t: Trace, next: Scope, restore: RestoreObject)
    requires IsRun(true, c, t) && restore.status.phase == NoPhase
    requires WellFormed(next) && forall k :: k in next.keys ==> k in c.keys
    ensures forall k :: k in c.keys ==> k in Last(t).nodes
    ensures Initial(next, NextRestore(Last(t), restore))
       <==> forall k :: k in next.keys ==> !Misleading(Last(t).nodes[k])
  {
    forall k | k in c.keys
      ensures k in Last(t).nodes && (NewNode(HandedOver(Last(t).nodes[k])) <==> !Misleading(Last(t).nodes[k]))
    {
      MisleadingIsExact(c, t, k);
      HandedOverIsNew(Last(t).nodes[k]);
    }
    var after := NextRestore(Last(t), restore);
    assert forall k :: k in next.keys ==> k in after.nodes && after.nodes[k] == HandedOver(Last(t).nodes[k]);
  }

  /** In particular after a finished restore: all that holds of one restore holds of each
      in a row of finished ones. */
  lemma FinishedIsAFreshStart(c: Scope, t: Trace, next: Scope, restore: RestoreObject)
    requires IsRun(true, c, t) && Last(t).restore.status.phase == Finished && restore.status.phase == NoPhase
    requires WellFormed(next) && forall k :: k in next.keys ==> k in c.keys
    ensures IsRun(true, next, Begin(NextRestore(Last(t), restore)))
  {
    FreshStartExact(c, t, next, restore);
    forall k | k in next.keys ensures !Misleading(Last(t).nodes[k]) {
      WhenMisleading(c, t, k);
      FinishedIsHeld(c, t, k);
    }
  }

  lemma FinishedIsHeld(c: Scope, t: Trace, k: Key)
    requires IsRun(true, c, t) && Last(t).restore.status.phase == Finished && k in c.keys
    ensures k in Last(t).nodes && Holds(Last(t).nodes[k], if c.init == Some(k) then Boot() else Join(c))
  {
    RunKeepsInv(c, t);
    assert NodeInv(c, Last(t), k);
  }
}
