/** Threads that want an access token at once; every read, write and lock operation of memory is a step of its own. */
module SingleFlight {
  import opened Protocol

  /** Where a thread is in `ensure_access_token`. */
  datatype Phase =
    | Ready
    | HasToken
    | HasExpiry
    | Fresh
    | Took(token: Option<nat>)
    | Blocked
    | Holding
    | Asking
    | Received(issue: nat)
    | Persisted(issue: nat)
    | Stored(issue: nat)
    | Clearing
    | Cleared
    | Done(token: Option<nat>, expiry: Option<nat>)
    | Raised

  /** What the call or the write a thread waits for comes to; `Throws` is a refused token whose file cannot be removed. */
  datatype Choice = Succeeds | Fails | FailsAfterReplacing | Throws

  /** Issue 0 is the one held at the start; `outliving` are those that outlive the validity asked for. */
  datatype State = State(
    outliving: set<nat>,
    threads: map<nat, Phase>,
    holder: Option<nat>,
    token: Option<nat>,
    expiry: Option<nat>,
    persisted: set<nat>,
    refreshes: nat,
    replaced: nat)

  function Usable(s: State): bool {
    s.token.Some? && s.expiry.Some? && s.expiry.value in s.outliving
  }

  function To(s: State, t: nat, phase: Phase): State {
    s.(threads := s.threads[t := phase])
  }

  function Release(s: State, t: nat, token: Option<nat>): State {
    To(s, t, Done(token, token)).(holder := None)
  }

  predicate Over(p: Phase) {
    p.Done? || p.Raised?
  }

  predicate Enabled(s: State, t: nat) {
    t in s.threads && !Over(s.threads[t]) && (s.threads[t].Blocked? ==> s.holder.None?)
  }

  /**
    One step of thread t. Only the thread that holds the lock writes, so what it reads is one step;
    without the lock the expiry is read twice, and the second read raises when it finds nothing.
   */
  function Next(s: State, t: nat, choice: Choice): State
    requires t in s.threads
  {
    match s.threads[t]
    case Ready => To(s, t, if s.token.Some? then HasToken else Blocked)
    case HasToken => To(s, t, if s.expiry.Some? then HasExpiry else Blocked)
    case HasExpiry =>
      To(s, t, if s.expiry.None? then Raised else if s.expiry.value in s.outliving then Fresh else Blocked)
    case Fresh => To(s, t, Took(s.token))
    case Took(token) => To(s, t, Done(token, s.expiry))
    case Blocked => To(s, t, Holding).(holder := Some(t))
    case Holding => if Usable(s) then Release(s, t, s.token) else To(s, t, Asking).(refreshes := s.refreshes + 1)
    case Asking =>
      if choice.Throws? then To(s, t, Raised).(holder := None)
      else To(s, t, if choice.Succeeds? then Received(s.refreshes) else Clearing)
    case Received(i) =>
      if choice.Fails? || choice.Throws? then To(s, t, Clearing)
      else
        To(s, t, if choice.Succeeds? then Persisted(i) else Clearing).(persisted := s.persisted + {i}, replaced := s.replaced + 1)
    case Persisted(i) => To(s, t, Stored(i)).(token := Some(i))
    case Stored(i) => Release(s, t, Some(i)).(expiry := Some(i))
    case Clearing => To(s, t, Cleared).(token := None)
    case Cleared => Release(s, t, None).(expiry := None)
    case _ => s
  }

  datatype Run = Run(states: seq<State>, moves: seq<(nat, Choice)>)

  /** Any threads, all about to begin; memory holds the first issue or nothing. */
  ghost predicate Starts(s: State) {
    && (forall t :: t in s.threads ==> s.threads[t] == Ready)
    && s.holder.None? && s.refreshes == 0 && s.replaced == 0
    && 0 in s.persisted
    && (s.token.Some? ==> s.token.value == 0)
    && s.token == s.expiry
  }

  ghost predicate IsRun(run: Run) {
    && |run.states| == |run.moves| + 1
    && Starts(run.states[0])
    && (forall k {:trigger run.moves[k]} :: 0 <= k < |run.moves| ==>
          Enabled(run.states[k], run.moves[k].0) && run.states[k + 1] == Next(run.states[k], run.moves[k].0, run.moves[k].1))
  }

  // ------------------------------------------------------------ the lock and the memory

  /** Between taking the lock and giving it back. */
  predicate Inside(p: Phase) {
    p.Holding? || p.Asking? || p.Received? || p.Persisted? || p.Stored? || p.Clearing? || p.Cleared?
  }

  ghost predicate Exclusive(s: State) {
    && (forall t :: t in s.threads ==> (Inside(s.threads[t]) <==> s.holder == Some(t)))
    && (s.holder.Some? ==> s.holder.value in s.threads)
  }

  /** The two halves of memory differ only while the holder is between writing them. */
  ghost predicate Paired(s: State) {
    s.token == s.expiry
    || (s.holder.Some? && s.holder.value in s.threads &&
        match s.threads[s.holder.value]
        case Stored(i) => s.token == Some(i)
        case Cleared => s.token == None
        case _ => false)
  }

  /** What memory holds, and what a thread returns or is about to store, was written to the file first. */
  ghost predicate Durable(s: State) {
    && (s.token.Some? ==> s.token.value in s.persisted)
    && (s.expiry.Some? ==> s.expiry.value in s.persisted)
    && (forall t :: t in s.threads ==> DurablePhase(s, s.threads[t]))
  }

  predicate DurablePhase(s: State, p: Phase) {
    match p
    case Persisted(i) => i in s.persisted
    case Stored(i) => i in s.persisted && s.token == Some(i)
    case Cleared => s.token == None
    case Took(token) => token.Some? ==> token.value in s.persisted
    case Done(token, expiry) =>
      (token.Some? ==> token.value in s.persisted) && (expiry.Some? ==> expiry.value in s.persisted)
    case _ => true
  }

  ghost predicate Ok(s: State) {
    Exclusive(s) && Paired(s) && Durable(s)
  }

  lemma StepExcludes(s: State, t: nat, choice: Choice)
    requires Exclusive(s) && Enabled(s, t)
    ensures Exclusive(Next(s, t, choice))
  {
  }

  lemma StepPairs(s: State, t: nat, choice: Choice)
    requires Ok(s) && Enabled(s, t)
    ensures Paired(Next(s, t, choice))
  {
  }

  lemma StepWritesFirst(s: State, t: nat, choice: Choice)
    requires Ok(s) && Enabled(s, t)
    ensures Durable(Next(s, t, choice))
  {
    var n := Next(s, t, choice);
    assert DurablePhase(s, s.threads[t]);
    forall u | u in n.threads ensures DurablePhase(n, n.threads[u]) {
      PhaseWritesFirst(s, t, choice, u);
    }
  }

  lemma PhaseWritesFirst(s: State, t: nat, choice: Choice, u: nat)
    requires Ok(s) && Enabled(s, t) && u in s.threads
    ensures DurablePhase(Next(s, t, choice), Next(s, t, choice).threads[u])
  {
    assert DurablePhase(s, s.threads[t]) && DurablePhase(s, s.threads[u]);
  }

  lemma StepKeeps(s: State, t: nat, choice: Choice)
    requires Ok(s) && Enabled(s, t)
    ensures Ok(Next(s, t, choice))
  {
    StepExcludes(s, t, choice);
    StepPairs(s, t, choice);
    StepWritesFirst(s, t, choice);
  }

  lemma {:induction false} RunIsOk(run: Run, k: nat)
    requires IsRun(run) && k < |run.states|
    ensures Ok(run.states[k])
  {
    if k > 0 {
      RunIsOk(run, k - 1);
      assert Enabled(run.states[k - 1], run.moves[k - 1].0);
      StepKeeps(run.states[k - 1], run.moves[k - 1].0, run.moves[k - 1].1);
    }
  }

  /** Whatever fails and however threads interleave, an access token in memory or handed out is of an issue on disk. */
  lemma TokensAreDurable(run: Run, k: nat, t: nat)
    requires IsRun(run) && k < |run.states| && t in run.states[k].threads
    ensures var s := run.states[k];
            && (s.token.Some? ==> s.token.value in s.persisted)
            && (s.threads[t].Done? && s.threads[t].token.Some? ==> s.threads[t].token.value in s.persisted)
  {
    RunIsOk(run, k);
  }

  /** Until all are done some thread can move: the lock's holder never waits. */
  lemma NoDeadlock(run: Run, k: nat)
    requires IsRun(run) && k < |run.states|
    requires exists t :: t in run.states[k].threads && !Over(run.states[k].threads[t])
    ensures exists t :: Enabled(run.states[k], t)
  {
    RunIsOk(run, k);
    var s := run.states[k];
    var t :| t in s.threads && !Over(s.threads[t]);
    if s.holder.Some? {
      assert Enabled(s, s.holder.value);
    } else {
      assert Enabled(s, t);
    }
  }

  // ------------------------------------------------------------ what was asked for and what was written

  /** In step `i` a thread with the lock finds no usable token in memory and asks the server. */
  predicate Requests(run: Run, i: nat)
    requires i < |run.moves| < |run.states|
  {
    var s, t := run.states[i], run.moves[i].0;
    t in s.threads && s.threads[t].Holding? && !(s.token.Some? && s.expiry.Some? && s.expiry.value in s.outliving)
  }

  /** In step `i` this issue, or any when none is named, replaces the file; the write may still be reported as failed. */
  predicate Replaces(run: Run, i: nat, issue: Option<nat>)
    requires i < |run.moves| < |run.states|
  {
    var s, (t, choice) := run.states[i], run.moves[i];
    && t in s.threads && s.threads[t].Received? && (issue.Some? ==> s.threads[t].issue == issue.value)
    && (choice == Succeeds || choice == FailsAfterReplacing)
  }

  function RequestsIn(run: Run, k: nat): nat
    requires k <= |run.moves| < |run.states|
  {
    if k == 0 then 0 else RequestsIn(run, k - 1) + if Requests(run, k - 1) then 1 else 0
  }

  function ReplacementsIn(run: Run, k: nat): nat
    requires k <= |run.moves| < |run.states|
  {
    if k == 0 then 0 else ReplacementsIn(run, k - 1) + if Replaces(run, k - 1, None) then 1 else 0
  }

  lemma CountsStep(s: State, t: nat, choice: Choice)
    requires t in s.threads
    ensures var n, p := Next(s, t, choice), s.threads[t];
            && n.refreshes == s.refreshes + (if p.Holding? && !(s.token.Some? && s.expiry.Some? && s.expiry.value in s.outliving) then 1 else 0)
            && n.replaced == s.replaced + (if p.Received? && (choice == Succeeds || choice == FailsAfterReplacing) then 1 else 0)
            && n.persisted == s.persisted + (if p.Received? && (choice == Succeeds || choice == FailsAfterReplacing) then {p.issue} else {})
            && n.outliving == s.outliving
  {
  }

  /** In every run, whatever fails: the requests and the replacements that are counted are those that were made. */
  lemma {:induction false} CountsAreExact(run: Run, k: nat)
    requires IsRun(run) && k < |run.states|
    ensures run.states[k].refreshes == RequestsIn(run, k) && run.states[k].replaced == ReplacementsIn(run, k)
  {
    if k > 0 {
      CountsAreExact(run, k - 1);
      assert Enabled(run.states[k - 1], run.moves[k - 1].0);
      CountsStep(run.states[k - 1], run.moves[k - 1].0, run.moves[k - 1].1);
    }
  }

  ghost predicate WasWritten(run: Run, k: nat, issue: nat)
    requires k <= |run.moves| < |run.states|
  {
    issue in run.states[0].persisted || exists i: nat :: i < k && Replaces(run, i, Some(issue))
  }

  /** And the issues that count as written are those held at the start and those that replaced the file. */
  lemma {:induction false} PersistedIff(run: Run, k: nat, issue: nat)
    requires IsRun(run) && k < |run.states|
    ensures issue in run.states[k].persisted <==> WasWritten(run, k, issue)
  {
    if k > 0 {
      PersistedIff(run, k - 1, issue);
      assert Enabled(run.states[k - 1], run.moves[k - 1].0);
      CountsStep(run.states[k - 1], run.moves[k - 1].0, run.moves[k - 1].1);
      assert WasWritten(run, k, issue) <==> WasWritten(run, k - 1, issue) || Replaces(run, k - 1, Some(issue));
    }
  }

  /** A thread that ends with the lock gives it back and hands out what memory then holds, after a failure nothing. */
  lemma LockedHandsOutMemory(run: Run, k: nat, t: nat)
    requires IsRun(run) && k < |run.moves| && run.moves[k].0 == t && t in run.states[k].threads
    requires Inside(run.states[k].threads[t]) && t in run.states[k + 1].threads && run.states[k + 1].threads[t].Done?
    ensures var s := run.states[k + 1];
            && s.threads[t] == Done(s.token, s.expiry) && s.token == s.expiry && s.holder.None?
            && (run.states[k].threads[t].Cleared? ==> s.token.None?)
  {
    RunIsOk(run, k);
    assert DurablePhase(run.states[k], run.states[k].threads[t]);
    StepKeeps(run.states[k], t, run.moves[k].1);
  }

  // ------------------------------------------------------------ one refresh for all

  /** Every call succeeds, the first issue is used up and the next outlives what is asked for. */
  ghost predicate Smooth(run: Run) {
    && |run.states| == |run.moves| + 1
    && (forall k {:trigger run.moves[k]} :: 0 <= k < |run.moves| ==> run.moves[k].1 == Succeeds)
    && 0 !in run.states[0].outliving && 1 in run.states[0].outliving
  }

  /** How far the one refresh is, by the phase of the thread that does it. */
  ghost predicate Underway(s: State, p: Phase) {
    match p
    case Asking => s.replaced == 0
    case Received(i) => i == 1 && s.replaced == 0
    case Persisted(i) => i == 1 && s.replaced == 1
    case Stored(i) => i == 1 && s.replaced == 1
    case _ => false
  }

  ghost predicate Before(s: State) {
    && s.refreshes == 0 && s.replaced == 0
    && s.expiry != Some(1) && (s.expiry.Some? ==> s.expiry.value == 0)
    && forall t :: t in s.threads ==>
         || s.threads[t].Ready? || s.threads[t].HasToken? || (s.threads[t].HasExpiry? && s.expiry.Some?)
         || s.threads[t].Blocked? || s.threads[t].Holding?
  }

  ghost predicate During(s: State) {
    && s.refreshes == 1
    && (s.expiry.Some? ==> s.expiry.value == 0)
    && s.holder.Some? && s.holder.value in s.threads && Underway(s, s.threads[s.holder.value])
    && forall t :: t in s.threads && t != s.holder.value ==>
         || s.threads[t].Ready? || s.threads[t].HasToken? || (s.threads[t].HasExpiry? && s.expiry.Some?)
         || s.threads[t].Blocked?
  }

  ghost predicate Afterwards(s: State) {
    && s.refreshes == 1 && s.replaced == 1
    && s.token == Some(1) && s.expiry == Some(1)
    && forall t :: t in s.threads ==>
         || s.threads[t].Ready? || s.threads[t].HasToken? || s.threads[t].HasExpiry? || s.threads[t].Fresh?
         || s.threads[t] == Took(Some(1))
         || s.threads[t].Blocked? || s.threads[t].Holding? || s.threads[t] == Done(Some(1), Some(1))
  }

  ghost predicate OneFlight(s: State) {
    0 !in s.outliving && 1 in s.outliving && (Before(s) || During(s) || Afterwards(s))
  }

  lemma FlightStep(s: State, t: nat)
    requires Ok(s) && Enabled(s, t) && OneFlight(s)
    ensures OneFlight(Next(s, t, Succeeds))
  {
  }

  lemma {:induction false} RunIsOneFlight(run: Run, k: nat)
    requires IsRun(run) && Smooth(run) && k < |run.states|
    ensures OneFlight(run.states[k])
  {
    if k > 0 {
      RunIsOneFlight(run, k - 1);
      RunIsOk(run, k - 1);
      assert Enabled(run.states[k - 1], run.moves[k - 1].0) && run.moves[k - 1].1 == Succeeds;
      FlightStep(run.states[k - 1], run.moves[k - 1].0);
    }
  }

  /**
    Any number of threads in any interleaving: at most one refresh and one replacement of the file ever,
    exactly one as soon as any thread is done, and every thread gets the same new token.
   */
  lemma OneRefreshForAll(run: Run, k: nat)
    requires IsRun(run) && Smooth(run) && k < |run.states|
    ensures var s := run.states[k];
            && s.refreshes <= 1 && s.replaced <= 1
            && (forall t :: t in s.threads && Over(s.threads[t]) ==>
                  s.threads[t] == Done(Some(1), Some(1)) && s.refreshes == 1 && s.replaced == 1)
  {
    RunIsOneFlight(run, k);
  }

  // ------------------------------------------------------------ the second read of the expiry

  /** Step `i` empties the expiry, after a refresh or a write has failed. */
  predicate Clears(run: Run, i: nat)
    requires i < |run.moves| < |run.states|
  {
    run.moves[i].0 in run.states[i].threads && run.states[i].threads[run.moves[i].0].Cleared?
  }

  predicate Stores(run: Run, i: nat)
    requires i < |run.moves| < |run.states|
  {
    run.moves[i].0 in run.states[i].threads && run.states[i].threads[run.moves[i].0].Stored?
  }

  predicate BetweenReads(s: State, t: nat) {
    t in s.threads && s.threads[t].HasExpiry?
  }

  /** Another thread emptied the expiry while `t` was between its two reads of it, and none has stored one since. */
  ghost predicate ClearedBetween(run: Run, k: nat, t: nat)
    requires k <= |run.moves| < |run.states|
  {
    exists i :: 0 <= i < k && Clears(run, i) && BetweenReads(run.states[i], t) && forall l :: i < l < k ==> !Stores(run, l)
  }

  lemma ExpiryStep(s: State, u: nat, choice: Choice, t: nat)
    requires Enabled(s, u) && BetweenReads(Next(s, u, choice), t)
    ensures Next(s, u, choice).expiry ==
              (if s.threads[u].Stored? then Some(s.threads[u].issue) else if s.threads[u].Cleared? then None else s.expiry)
    ensures BetweenReads(s, t) || (u == t && s.threads[t].HasToken? && s.expiry.Some?)
  {
  }

  lemma {:induction false} ExpiryGoneIff(run: Run, k: nat, t: nat)
    requires IsRun(run) && k < |run.states| && BetweenReads(run.states[k], t)
    ensures run.states[k].expiry.None? <==> ClearedBetween(run, k, t)
  {
    if k > 0 {
      var u, choice := run.moves[k - 1].0, run.moves[k - 1].1;
      ExpiryStep(run.states[k - 1], u, choice, t);
      if BetweenReads(run.states[k - 1], t) {
        ExpiryGoneIff(run, k - 1, t);
        ClearedStep(run, k - 1, t);
      } else {
        NotBetween(run, k - 1, t);
      }
    }
  }

  lemma ClearedStep(run: Run, k: nat, t: nat)
    requires k < |run.moves| < |run.states| && BetweenReads(run.states[k], t)
    ensures ClearedBetween(run, k + 1, t) <==> Clears(run, k) || (ClearedBetween(run, k, t) && !Stores(run, k))
  {
    if ClearedBetween(run, k, t) && !Stores(run, k) {
      var i :| 0 <= i < k && Clears(run, i) && BetweenReads(run.states[i], t) && forall l :: i < l < k ==> !Stores(run, l);
      assert Clears(run, i) && BetweenReads(run.states[i], t) && forall l :: i < l < k + 1 ==> !Stores(run, l);
    }
    if ClearedBetween(run, k + 1, t) && !Clears(run, k) {
      var i :| 0 <= i < k + 1 && Clears(run, i) && BetweenReads(run.states[i], t) && forall l :: i < l < k + 1 ==> !Stores(run, l);
      assert i < k && !Stores(run, k);
    }
  }

  /** A thread that has not read the expiry yet was not between its reads before. */
  lemma {:induction false} NotYetRead(run: Run, i: nat, k: nat, t: nat)
    requires IsRun(run) && i <= k < |run.states| && t in run.states[k].threads
    requires run.states[k].threads[t].Ready? || run.states[k].threads[t].HasToken?
    ensures !BetweenReads(run.states[i], t)
  {
    if i < k {
      assert Enabled(run.states[k - 1], run.moves[k - 1].0);
      NotYetRead(run, i, k - 1, t);
    }
  }

  lemma NotBetween(run: Run, k: nat, t: nat)
    requires IsRun(run) && k < |run.moves| && t in run.states[k].threads && run.states[k].threads[t].HasToken?
    ensures !ClearedBetween(run, k + 1, t)
  {
    forall i | 0 <= i < k + 1 ensures !BetweenReads(run.states[i], t) {
      NotYetRead(run, i, k, t);
    }
  }

  /**
    A thread without the lock raises exactly when another thread's failed refresh or write emptied memory between its
    two reads of the expiry and no new expiry was stored before the second; otherwise the second read
    finds one, and the thread goes on without the lock if and only if that expiry is late enough.
   */
  lemma RaisesIff(run: Run, k: nat, t: nat)
    requires IsRun(run) && k < |run.moves| && run.moves[k].0 == t && BetweenReads(run.states[k], t)
    ensures run.states[k + 1].threads[t].Raised? <==> ClearedBetween(run, k, t)
    ensures !ClearedBetween(run, k, t) ==>
              && run.states[k].expiry.Some?
              && run.states[k + 1].threads[t] == (if run.states[k].expiry.value in run.states[k].outliving then Fresh else Blocked)
  {
    ExpiryGoneIff(run, k, t);
  }

  ghost predicate Reaches(s: State, t: State) {
    exists run :: IsRun(run) && run.states[0] == s && run.states[|run.moves|] == t
  }

  lemma ReachesNext(s: State, t: State, u: nat, choice: Choice, next: State)
    requires Starts(s) && (s == t || Reaches(s, t))
    requires Enabled(t, u) && next == Next(t, u, choice)
    ensures Reaches(s, next)
  {
    var run := Run([s], []);
    if s != t {
      run :| IsRun(run) && run.states[0] == s && run.states[|run.moves|] == t;
    }
    var longer := Run(run.states + [next], run.moves + [(u, choice)]);
    forall k {:trigger longer.moves[k]} | 0 <= k < |longer.moves|
      ensures Enabled(longer.states[k], longer.moves[k].0)
      ensures longer.states[k + 1] == Next(longer.states[k], longer.moves[k].0, longer.moves[k].1)
    {
      if k < |run.moves| {
        assert longer.moves[k] == run.moves[k];
      }
    }
    assert IsRun(longer);
  }

  /** Two threads and an expired token in memory. */
  function Pair(one: Phase, two: Phase, holder: Option<nat>, token: Option<nat>, expiry: Option<nat>, refreshes: nat): State {
    State({}, map[1 := one, 2 := two], holder, token, expiry, {0}, refreshes, 0)
  }

  lemma PairMoves(t: State, u: nat, choice: Choice, next: State)
    requires Reaches(Pair(Ready, Ready, None, Some(0), Some(0), 0), t) || t == Pair(Ready, Ready, None, Some(0), Some(0), 0)
    requires Enabled(t, u) && next == Next(t, u, choice)
    ensures Reaches(Pair(Ready, Ready, None, Some(0), Some(0), 0), next)
  {
    ReachesNext(Pair(Ready, Ready, None, Some(0), Some(0), 0), t, u, choice, next);
  }

  lemma FirstHasRead()
    ensures Reaches(Pair(Ready, Ready, None, Some(0), Some(0), 0), Pair(HasExpiry, HasToken, None, Some(0), Some(0), 0))
  {
    var s0 := Pair(Ready, Ready, None, Some(0), Some(0), 0);
    var s1 := Pair(HasToken, Ready, None, Some(0), Some(0), 0);
    var s2 := Pair(HasExpiry, Ready, None, Some(0), Some(0), 0);
    PairMoves(s0, 1, Succeeds, s1);
    PairMoves(s1, 1, Succeeds, s2);
    PairMoves(s2, 2, Succeeds, Pair(HasExpiry, HasToken, None, Some(0), Some(0), 0));
  }

  lemma SecondIsBlocked()
    ensures Reaches(Pair(Ready, Ready, None, Some(0), Some(0), 0), Pair(HasExpiry, Blocked, None, Some(0), Some(0), 0))
  {
    var s4 := Pair(HasExpiry, HasExpiry, None, Some(0), Some(0), 0);
    FirstHasRead();
    PairMoves(Pair(HasExpiry, HasToken, None, Some(0), Some(0), 0), 2, Succeeds, s4);
    PairMoves(s4, 2, Succeeds, Pair(HasExpiry, Blocked, None, Some(0), Some(0), 0));
  }

  lemma SecondTakesTheLock()
    ensures Reaches(Pair(Ready, Ready, None, Some(0), Some(0), 0), Pair(HasExpiry, Asking, Some(2), Some(0), Some(0), 1))
  {
    var s6 := Pair(HasExpiry, Holding, Some(2), Some(0), Some(0), 0);
    SecondIsBlocked();
    PairMoves(Pair(HasExpiry, Blocked, None, Some(0), Some(0), 0), 2, Succeeds, s6);
    PairMoves(s6, 2, Succeeds, Pair(HasExpiry, Asking, Some(2), Some(0), Some(0), 1));
  }

  lemma SecondFails()
    ensures Reaches(Pair(Ready, Ready, None, Some(0), Some(0), 0), Pair(HasExpiry, Clearing, Some(2), Some(0), Some(0), 1))
  {
    SecondTakesTheLock();
    PairMoves(Pair(HasExpiry, Asking, Some(2), Some(0), Some(0), 1), 2, Fails,
              Pair(HasExpiry, Clearing, Some(2), Some(0), Some(0), 1));
  }

  /** While the first thread is between its two reads, the second takes the lock and its refresh fails. */
  lemma FailedRefreshClears()
    ensures Reaches(Pair(Ready, Ready, None, Some(0), Some(0), 0), Pair(HasExpiry, Done(None, None), None, None, None, 1))
  {
    var s9 := Pair(HasExpiry, Cleared, Some(2), None, Some(0), 1);
    SecondFails();
    PairMoves(Pair(HasExpiry, Clearing, Some(2), Some(0), Some(0), 1), 2, Succeeds, s9);
    PairMoves(s9, 2, Succeeds, Pair(HasExpiry, Done(None, None), None, None, None, 1));
  }

  /** Then the first thread raises instead of returning an outcome. */
  lemma RaceRaises() returns (s: State)
    ensures Reaches(Pair(Ready, Ready, None, Some(0), Some(0), 0), s) && 1 in s.threads && s.threads[1].Raised?
  {
    FailedRefreshClears();
    s := Pair(Raised, Done(None, None), None, None, None, 1);
    PairMoves(Pair(HasExpiry, Done(None, None), None, None, None, 1), 1, Succeeds, s);
  }
}
