/** The restore object is read through a cache. When the reads may be stale without harm:
    exactly if they never go back. */
module StaleReads {
  import opened Objects
  import opened Instructions
  import opened Protocol
  import opened Safety
  import opened Guarantees

  // ---- A phase that was read, and the stored one -----------------------------------------

  predicate Current(s: State, read: Phase) {
    read == s.restore.status.phase || (Early(read) && Early(s.restore.status.phase))
  }

  /** The stored phase is one further, and what its step waited for is still true. */
  predicate Overtaken(c: Scope, s: State, read: Phase) {
    && !Early(s.restore.status.phase)
    && Edge(read, s.restore.status.phase) && Earned(c, s, s.restore.status.phase)
  }

  predicate InTurn(c: Scope, s: State, read: Phase) { Current(s, read) || Overtaken(c, s, read) }

  /** The handler of a phase that was overtaken finds all its plans in place. */
  lemma InPlace(c: Scope, s: State, read: Phase, k: Key, p: Plan)
    requires Overtaken(c, s, read) && k in c.keys && DueAt(c, s, read, k, p)
    ensures k in s.nodes && PlanOf(s.nodes[k]) == Some(p)
  {
    PlansDiffer(c);
  }

  /** A phase between one that is in turn and the stored one is in turn. */
  lemma Between(c: Scope, s: State, p: Phase, q: Phase)
    requires InTurn(c, s, p) && Reached(p) && Reached(q) && Reached(s.restore.status.phase)
    requires Rank(p) <= Rank(q) <= Rank(s.restore.status.phase)
    ensures InTurn(c, s, q)
  {
  }

  lemma EarnedByOthers(c: Scope, s: State, t: State)
    requires Inv(c, s) && t.restore.status == s.restore.status && Earned(c, s, s.restore.status.phase)
    requires forall k :: k in c.keys && Quiescent(s.nodes[k]) ==> k in t.nodes && t.nodes[k] == s.nodes[k]
    ensures Earned(c, t, s.restore.status.phase)
  {
    match s.restore.status.phase
    case Shutdown =>
      forall k | k in c.keys ensures Applied(t, k, Kill()) {
        HeldIsQuiescent(c, s, k, Kill());
      }
    case Restore => HeldIsQuiescent(c, s, c.init.value, Recover(c));
    case Finished =>
      HeldIsQuiescent(c, s, c.init.value, Boot());
      forall k | k in c.keys && k != c.init.value ensures Applied(t, k, Join(c)) {
        HeldIsQuiescent(c, s, k, Join(c));
      }
    case _ =>
  }

  // ---- Runs with stale reads ----------------------------------------------------------------

  /** A run that notes for each event of the controller which phase its pass had read. */
  datatype Noted = Start(s: State) | Did(before: Noted, e: Event, read: Phase)

  function Plain(l: Noted): Trace {
    match l
    case Start(s) => Begin(s)
    case Did(before, e, read) => Then(Plain(before), e)
  }

  function Now(l: Noted): State { Last(Plain(l)) }

  predicate ByController(e: Event) { e.Pause? || e.Unpause? || e.WritePlan? || e.Persist? }

  /** The phase the controller read last. */
  function Newest(l: Noted): Phase {
    match l
    case Start(s) => NoPhase
    case Did(before, e, read) => if ByController(e) then read else Newest(before)
  }

  /** What a pass does that read this phase. Its status patch is refused unless the object
      it read is the stored one. */
  predicate Handles(c: Scope, s: State, read: Phase, e: Event) {
    match e
    case WritePlan(k, p) => DueAt(c, s, read, k, p)
    case Persist(status) => read == s.restore.status.phase && Earned(c, s, status.phase)
    case Unpause => read == Finished
    case _ => true
  }

  /** The controller reads any phase that was ever stored; unless `back`, none older than
      the one it read last. */
  predicate StaleRun(back: bool, c: Scope, l: Noted) {
    match l
    case Start(s) => Initial(c, s)
    case Did(before, e, read) =>
      && StaleRun(back, c, before) && Enabled(false, c, Now(before), e)
      && (ByController(e) ==>
            && read in Stored(Plain(before)) && Handles(c, Now(before), read, e)
            && (!back ==> Rank(Newest(before)) <= Rank(read)))
  }

  lemma {:induction false} StaleIsRun(back: bool, c: Scope, l: Noted)
    requires StaleRun(back, c, l)
    ensures IsRun(false, c, Plain(l))
  {
    match l
    case Start(s) =>
    case Did(before, e, read) => StaleIsRun(back, c, before);
  }

  lemma {:induction false} StoredRank(c: Scope, t: Trace, p: Phase)
    requires IsRun(false, c, t) && p in Stored(t)
    ensures Reached(p) && Rank(p) <= Rank(Last(t).restore.status.phase)
  {
    PhaseMovesForward(false, c, t, t);
    match t
    case Begin(s) =>
    case Then(before, e) =>
      if p in Stored(before) {
        StoredRank(c, before, p);
        PhaseMovesForward(false, c, before, t);
      }
  }

  // ---- Reads that never go back ---------------------------------------------------------------

  lemma WriteIsInTurn(c: Scope, s: State, read: Phase, k: Key, p: Plan)
    requires InTurn(c, s, read) && DueAt(c, s, read, k, p) && Enabled(false, c, s, WritePlan(k, p))
    ensures Enabled(true, c, s, WritePlan(k, p)) && InTurn(c, Effect(s, WritePlan(k, p)), read)
  {
    if !Current(s, read) {
      InPlace(c, s, read, k, p);
      assert false;
    }
  }

  lemma PersistIsInTurn(c: Scope, s: State, status: RestoreStatus)
    requires Enabled(false, c, s, Persist(status)) && Earned(c, s, status.phase)
    ensures Enabled(true, c, s, Persist(status))
    ensures InTurn(c, Effect(s, Persist(status)), s.restore.status.phase)
  {
    var t := Effect(s, Persist(status));
    assert forall k, p :: Applied(s, k, p) == Applied(t, k, p);
  }

  lemma OthersKeepTurn(c: Scope, s: State, e: Event, read: Phase)
    requires Inv(c, s) && InTurn(c, s, read) && Enabled(true, c, s, e) && !e.WritePlan? && !e.Persist?
    ensures InTurn(c, Effect(s, e), read)
  {
    if Overtaken(c, s, read) {
      EarnedByOthers(c, s, Effect(s, e));
    }
  }

  /** However stale they are, reads that never go back make the controller write every plan
      in turn: all that holds of such runs holds of it. */
  lemma {:induction false} ForwardReadsSuffice(c: Scope, l: Noted)
    requires StaleRun(false, c, l)
    ensures IsRun(true, c, Plain(l)) && InTurn(c, Now(l), Newest(l))
    ensures Reached(Newest(l)) && Rank(Newest(l)) <= Rank(Now(l).restore.status.phase)
  {
    match l
    case Start(s) =>
    case Did(before, e, read) =>
      ForwardReadsSuffice(c, before);
      RunKeepsInv(c, Plain(before));
      NextRead(c, before, e, read);
      StepInTurn(c, Now(before), e, Newest(l));
  }

  lemma StepInTurn(c: Scope, s: State, e: Event, read: Phase)
    requires Inv(c, s) && InTurn(c, s, read) && Enabled(false, c, s, e)
    requires ByController(e) ==> Handles(c, s, read, e)
    ensures Enabled(true, c, s, e) && InTurn(c, Effect(s, e), read)
  {
    match e
    case WritePlan(k, p) => WriteIsInTurn(c, s, read, k, p);
    case Persist(status) => PersistIsInTurn(c, s, status);
    case _ => OthersKeepTurn(c, s, e, read);
  }

  lemma NextRead(c: Scope, before: Noted, e: Event, read: Phase)
    requires StaleRun(false, c, Did(before, e, read)) && InTurn(c, Now(before), Newest(before))
    requires Inv(c, Now(before)) && Reached(Newest(before))
    requires Rank(Newest(before)) <= Rank(Now(before).restore.status.phase)
    ensures var newest := Newest(Did(before, e, read));
            && Reached(newest) && InTurn(c, Now(before), newest)
            && Rank(newest) <= Rank(Effect(Now(before), e).restore.status.phase)
  {
    var l := Did(before, e, read);
    StaleIsRun(false, c, l);
    PhaseMovesForward(false, c, Plain(before), Plain(l));
    if ByController(e) {
      StoredRank(c, Plain(before), read);
      Between(c, Now(before), Newest(before), read);
    }
  }

  lemma {:induction false} LastIsStored(t: Trace)
    ensures Last(t).restore.status.phase in Stored(t)
  {
    match t
    case Begin(s) =>
    case Then(before, e) => LastIsStored(before);
  }

  lemma {:induction false} FreshReads(c: Scope, t: Trace) returns (l: Noted)
    requires IsRun(true, c, t)
    ensures Plain(l) == t && StaleRun(false, c, l)
  {
    match t
    case Begin(s) => l := Start(s);
    case Then(before, e) =>
      var l' := FreshReads(c, before);
      ForwardReadsSuffice(c, l');
      LastIsStored(before);
      l := Did(l', e, Last(before).restore.status.phase);
  }

  /** The runs in which plans are written in turn are exactly those of a controller whose
      reads never go back. */
  lemma InTurnIsForwardReads(c: Scope, t: Trace)
    ensures IsRun(true, c, t) <==> exists l :: Plain(l) == t && StaleRun(false, c, l)
  {
    if IsRun(true, c, t) {
      var l := FreshReads(c, t);
    }
    if l :| Plain(l) == t && StaleRun(false, c, l) {
      ForwardReadsSuffice(c, l);
    }
  }

  // ---- Reads that go back ----------------------------------------------------------------------

  /** A machine that was stopped by an earlier restore. */
  function HeldNode(): Node {
    var host := Host(false, Original("data"), [], {});
    Node(Secret(0, Data(Some(Kill()), HexSha(Kill()))), None, host, None, host, [], [], [])
  }

  lemma {:induction false} Do(c: Scope, l: Noted, e: Event, read: Phase) returns (l': Noted)
    requires StaleRun(true, c, l) && Enabled(false, c, Now(l), e)
    requires ByController(e) ==> read in Stored(Plain(l)) && Handles(c, Now(l), read, e)
    ensures l' == Did(l, e, read) && StaleRun(true, c, l') && Now(l') == Effect(Now(l), e)
    ensures Writes(Plain(l')) == Writes(Plain(l)) + if e.WritePlan? then 1 else 0
    ensures forall p :: p in Stored(Plain(l)) ==> p in Stored(Plain(l'))
    ensures e.Persist? ==> e.status.phase in Stored(Plain(l'))
  {
    l' := Did(l, e, read);
  }

  /** The machine the backup is on, stopped, in a restore past the shutdown. */
  predicate AtShutdown(c: Scope, l: Noted, i: Key) {
    && StaleRun(true, c, l) && NoPhase in Stored(Plain(l)) && Shutdown in Stored(Plain(l))
    && Now(l).restore.status.phase == Shutdown && Now(l).paused
    && i in Now(l).nodes && Holds(Now(l).nodes[i], Kill()) && Now(l).nodes[i].work.None?
  }

  lemma {:induction false} AllHeld(c: Scope, i: Key) returns (l: Noted)
    requires WellFormed(c) && c.init == Some(i)
    ensures AtShutdown(c, l, i)
  {
    PlansDiffer(c);
    assert Kill()[..0] == [];
    var restore := RestoreObject(map[], false, RestoreSpec("cluster", "backup"), RestoreStatus(NoPhase, []));
    var s := State(restore, 0, false, 0, map k | k in c.keys :: HeldNode());
    l := Start(s);
    assert Initial(c, s);
    l := Do(c, l, Pause, NoPhase);
    l := Do(c, l, Persist(RestoreStatus(Shutdown, [])), NoPhase);
  }

  /** One pass reads the shutdown phase and writes the restore plan; the next reads an older
      phase again and writes the kill-all over it. */
  lemma {:induction false} BackAndForth(c: Scope, i: Key, m: nat) returns (l: Noted)
    requires WellFormed(c) && c.init == Some(i) && c.location != ""
    ensures AtShutdown(c, l, i) && Writes(Plain(l)) >= 2 * m
  {
    PlansDiffer(c);
    if m == 0 {
      l := AllHeld(c, i);
    } else {
      l := BackAndForth(c, i, m - 1);
      l := Do(c, l, WritePlan(i, Recover(c)), Shutdown);
      l := Do(c, l, WritePlan(i, Kill()), NoPhase);
    }
  }

  /** If reads may go back, then in every scope with an init machine and a location no number
      bounds the writes, and a kill-all is found acknowledged on a machine whose agent is
      at work on the restore plan. */
  lemma {:induction false} GoingBackBreaks(c: Scope, i: Key, m: nat) returns (l: Noted, later: Noted)
    requires WellFormed(c) && c.init == Some(i) && c.location != ""
    ensures StaleRun(true, c, l) && i in Now(l).nodes
    ensures Holds(Now(l).nodes[i], Kill()) && Now(l).nodes[i].work == Some(Work(Recover(c), 0))
    ensures StaleRun(true, c, later) && Writes(Plain(later)) >= 2 * m
  {
    PlansDiffer(c);
    later := BackAndForth(c, i, m);
    l := AllHeld(c, i);
    l := Do(c, l, WritePlan(i, Recover(c)), Shutdown);
    l := Do(c, l, Agent(i, Pickup), NoPhase);
    l := Do(c, l, WritePlan(i, Kill()), NoPhase);
  }

  /** No machine with an acknowledged kill-all has anything left to do. */
  predicate KillsAreSound(c: Scope, s: State) {
    forall k :: k in c.keys && Applied(s, k, Kill()) ==> Quiescent(s.nodes[k])
  }

  lemma KillsAreSoundInTurn(c: Scope, t: Trace)
    requires IsRun(true, c, t)
    ensures KillsAreSound(c, Last(t))
  {
    RunKeepsInv(c, t);
    forall k | k in c.keys && Applied(Last(t), k, Kill()) ensures Quiescent(Last(t).nodes[k]) {
      HeldIsQuiescent(c, Last(t), k, Kill());
    }
  }

  /** So whether reads may go back decides whether plans are written in turn, whether an
      acknowledged kill-all can be believed, and whether 2n + 1 bounds the writes. */
  lemma ExactlyForwardReads(c: Scope, i: Key, back: bool)
    requires WellFormed(c) && c.init == Some(i) && c.location != ""
    ensures !back <==> forall l :: StaleRun(back, c, l) ==> IsRun(true, c, Plain(l))
    ensures !back <==> forall l :: StaleRun(back, c, l) ==> KillsAreSound(c, Now(l))
    ensures !back <==> forall l :: StaleRun(back, c, l) ==> Writes(Plain(l)) <= 2 * |c.keys| + 1
  {
    forall l | StaleRun(false, c, l)
      ensures IsRun(true, c, Plain(l)) && KillsAreSound(c, Now(l)) && Writes(Plain(l)) <= 2 * |c.keys| + 1
    {
      ForwardReadsSuffice(c, l);
      KillsAreSoundInTurn(c, Plain(l));
      BoundedWrites(c, Plain(l));
    }
    var l, later := GoingBackBreaks(c, i, |c.keys| + 1);
    assert !KillsAreSound(c, Now(l));
    if IsRun(true, c, Plain(later)) {
      BoundedWrites(c, Plain(later));
      assert false;
    }
  }
}
