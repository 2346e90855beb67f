/** The job controller: one run per job name, and a callback for every request.

    JavaScript runs one continuation at a time, so each method of the controller is what happens
    between two awaits of a request, and every interleaving is some order of their calls. A request
    is identified by a token that is never reused. */
module JobDispatcher {
  datatype STATE = PENDING | EXECUTING | SUCCESS | FAIL

  /** Where an FTP run stands between `connect` and `end`; a run of another job stays at `Connecting`. */
  datatype Stage = Connecting | Handling | Ending

  /** The await at which a request is suspended. */
  datatype Await =
    | InJob(jobName: string, stage: Stage)
    | InRunCallback
    | InBusyCallback
    | InFailCallback

  const COLISPRIVE := "ColispriveTrackingJob"

  type States = map<string, STATE>
  type Awaits = map<nat, Await>

  predicate Running(awaits: Awaits, token: nat, jobName: string) {
    token in awaits && awaits[token].InJob? && awaits[token].jobName == jobName
  }

  predicate Executing(states: States, jobName: string) { jobName in states && states[jobName] == EXECUTING }

  ghost predicate SomeRuns(awaits: Awaits, jobName: string) { exists token :: Running(awaits, token, jobName) }

  /** A job name is EXECUTING exactly when one run is inside the job. */
  ghost predicate Exclusive(states: States, awaits: Awaits) {
    && (forall jobName :: Executing(states, jobName) <==> SomeRuns(awaits, jobName))
    && (forall a, b, jobName :: Running(awaits, a, jobName) && Running(awaits, b, jobName) ==> a == b)
  }

  /** Past its connect, a run holds the session it opened itself on the job's shared client. */
  ghost predicate OwnSession(awaits: Awaits, session: map<string, nat>) {
    forall token :: token in awaits && awaits[token].InJob? && awaits[token].stage != Connecting ==>
      awaits[token].jobName in session && session[awaits[token].jobName] == token
  }

  /** No callback was tried while the job runs; a second one only after the first threw. */
  predicate CountOk(awaits: Awaits, token: nat, n: nat, refused: bool) {
    && n <= 2 && (!refused ==> n <= 1)
    && if token !in awaits then n >= 1
       else match awaits[token]
            case InJob(_, _) => n == 0 && !refused
            case InRunCallback => n == 1 && !refused
            case InBusyCallback => n == 1 && !refused
            case InFailCallback => n == if refused then 2 else 1
  }

  ghost predicate Counted(awaits: Awaits, next: nat, attempts: map<nat, nat>, refused: set<nat>) {
    && (forall token: nat :: token in attempts <==> token < next)
    && (forall token :: token in awaits ==> token < next)
    && (forall token :: token in refused ==> token < next)
    && (forall token :: token in attempts ==> CountOk(awaits, token, attempts[token], token in refused))
  }

  // ---------------------------------------------------------------- what the continuations do to exclusion

  lemma EnterKeeps(states: States, awaits: Awaits, token: nat, jobName: string)
    requires Exclusive(states, awaits) && token !in awaits && !Executing(states, jobName)
    ensures Exclusive(states[jobName := EXECUTING], awaits[token := InJob(jobName, Connecting)])
  {
    var states', awaits' := states[jobName := EXECUTING], awaits[token := InJob(jobName, Connecting)];
    assert forall t :: !Running(awaits, t, jobName) by { assert !SomeRuns(awaits, jobName); }
    forall t, j ensures Running(awaits', t, j) <==> (t == token && j == jobName) || Running(awaits, t, j) {}
    forall j ensures Executing(states', j) <==> SomeRuns(awaits', j) {
      if j == jobName {
        assert Running(awaits', token, j);
      } else {
        assert SomeRuns(awaits, j) <==> SomeRuns(awaits', j) by {
          if t :| Running(awaits, t, j) { assert Running(awaits', t, j); }
          if t :| Running(awaits', t, j) { assert Running(awaits, t, j); }
        }
      }
    }
  }

  lemma LeaveKeeps(states: States, awaits: Awaits, token: nat, jobName: string, status: STATE)
    requires Exclusive(states, awaits) && Running(awaits, token, jobName) && status != EXECUTING
    ensures Exclusive(states[jobName := status], awaits[token := InRunCallback])
  {
    var states', awaits' := states[jobName := status], awaits[token := InRunCallback];
    forall t, j ensures Running(awaits', t, j) <==> t != token && Running(awaits, t, j) {}
    forall j ensures Executing(states', j) <==> SomeRuns(awaits', j) {
      if j == jobName {
        forall t ensures !Running(awaits', t, j) {}
      } else if SomeRuns(awaits, j) {
        var t :| Running(awaits, t, j);
        assert Running(awaits', t, j);
      }
    }
  }

  /** Whatever happens to requests outside their jobs, and to stages inside, leaves exclusion alone. */
  lemma SameRunsKeep(states: States, awaits: Awaits, awaits': Awaits)
    requires Exclusive(states, awaits)
    requires forall t, j :: Running(awaits', t, j) <==> Running(awaits, t, j)
    ensures Exclusive(states, awaits')
  {
    forall j ensures SomeRuns(awaits', j) <==> SomeRuns(awaits, j) {
      if t :| Running(awaits, t, j) { assert Running(awaits', t, j); }
      if t :| Running(awaits', t, j) { assert Running(awaits, t, j); }
    }
  }

  // ---------------------------------------------------------------- every interleaving

  /** The whole state between two continuations. `attempts` counts the callbacks tried per request,
      `refused` holds the requests some callback of which threw, tokens below `next` were used, and
      `session` tells, per job, which run last connected its shared FTP client. */
  datatype Moment = Moment(
    states: States, awaits: Awaits, next: nat, session: map<string, nat>, attempts: map<nat, nat>, refused: set<nat>)

  ghost predicate Inv(m: Moment) {
    Exclusive(m.states, m.awaits) && OwnSession(m.awaits, m.session) && Counted(m.awaits, m.next, m.attempts, m.refused)
  }

  predicate InJobAt(m: Moment, token: nat) { token in m.awaits && m.awaits[token].InJob? }

  /** The `execute` endpoint, up to its first await. `known` says whether the module knows the job. */
  predicate Entered(m: Moment, m': Moment, jobName: string, known: bool) {
    var token := m.next;
    m' == if known && !Executing(m.states, jobName)
          then m.(states := m.states[jobName := EXECUTING], awaits := m.awaits[token := InJob(jobName, Connecting)],
                  next := token + 1, attempts := m.attempts[token := 0])
          else m.(awaits := m.awaits[token := if known then InBusyCallback else InFailCallback],
                  next := token + 1, attempts := m.attempts[token := 1])
  }

  /** The run's job resolved or threw, and the `finally` block goes on to the callback. */
  predicate Settled(m: Moment, m': Moment, token: nat, ok: bool) {
    && InJobAt(m, token)
    && m' == m.(states := m.states[m.awaits[token].jobName := if ok then SUCCESS else FAIL],
                awaits := m.awaits[token := InRunCallback], attempts := m.attempts[token := 1])
  }

  /** The awaited callback of a request resolved or threw. Only the callback for a busy job is
      followed, when it throws, by a second one. */
  predicate CalledBack(m: Moment, m': Moment, token: nat, ok: bool) {
    && token in m.awaits && !m.awaits[token].InJob?
    && var refused' := if ok then m.refused else m.refused + {token};
       m' == if !ok && m.awaits[token].InBusyCallback?
             then m.(awaits := m.awaits[token := InFailCallback], attempts := m.attempts[token := 2],
                     refused := refused')
             else m.(awaits := m.awaits - {token}, refused := refused')
  }

  /** The run's own `connect` resolved, and `handle` begins on the shared client. */
  predicate Connected(m: Moment, m': Moment, token: nat) {
    && InJobAt(m, token) && m.awaits[token].stage == Connecting
    && m' == m.(awaits := m.awaits[token := InJob(m.awaits[token].jobName, Handling)],
                session := m.session[m.awaits[token].jobName := token])
  }

  /** `handle` resolved, and `end` is called. */
  predicate Handled(m: Moment, m': Moment, token: nat) {
    && InJobAt(m, token) && m.awaits[token].stage == Handling
    && m' == m.(awaits := m.awaits[token := InJob(m.awaits[token].jobName, Ending)])
  }

  ghost predicate Next(m: Moment, m': Moment) {
    || (exists jobName: string, known: bool :: Entered(m, m', jobName, known))
    || (exists token: nat, ok: bool :: Settled(m, m', token, ok))
    || (exists token: nat, ok: bool :: CalledBack(m, m', token, ok))
    || (exists token: nat :: Connected(m, m', token))
    || (exists token: nat :: Handled(m, m', token))
  }

  function Idle(): Moment { Moment(map[], map[], 0, map[], map[], {}) }

  ghost predicate StepAt(b: seq<Moment>, k: nat) { 0 < k < |b| ==> Next(b[k - 1], b[k]) }

  ghost predicate Behaviour(b: seq<Moment>) { |b| > 0 && b[0] == Idle() && forall k: nat :: StepAt(b, k) }

  lemma EnteredKeeps(m: Moment, m': Moment, jobName: string, known: bool)
    requires Inv(m) && Entered(m, m', jobName, known)
    ensures Inv(m')
  {
    if known && !Executing(m.states, jobName) {
      EnterKeeps(m.states, m.awaits, m.next, jobName);
    } else {
      SameRunsKeep(m.states, m.awaits, m'.awaits);
    }
  }

  lemma SettledKeeps(m: Moment, m': Moment, token: nat, ok: bool)
    requires Inv(m) && Settled(m, m', token, ok)
    ensures Inv(m')
  {
    LeaveKeeps(m.states, m.awaits, token, m.awaits[token].jobName, if ok then SUCCESS else FAIL);
  }

  lemma CalledBackKeeps(m: Moment, m': Moment, token: nat, ok: bool)
    requires Inv(m) && CalledBack(m, m', token, ok)
    ensures Inv(m')
  {
    SameRunsKeep(m.states, m.awaits, m'.awaits);
  }

  lemma ConnectedKeeps(m: Moment, m': Moment, token: nat)
    requires Inv(m) && Connected(m, m', token)
    ensures Inv(m')
  {
    var jobName := m.awaits[token].jobName;
    assert Running(m.awaits, token, jobName);
    forall t | InJobAt(m, t) && t != token ensures m.awaits[t].jobName != jobName {
      assert Running(m.awaits, t, m.awaits[t].jobName);
    }
    SameRunsKeep(m.states, m.awaits, m'.awaits);
  }

  lemma HandledKeeps(m: Moment, m': Moment, token: nat)
    requires Inv(m) && Handled(m, m', token)
    ensures Inv(m')
  {
    SameRunsKeep(m.states, m.awaits, m'.awaits);
  }

  lemma NextKeeps(m: Moment, m': Moment)
    requires Inv(m) && Next(m, m')
    ensures Inv(m')
  {
    if jobName: string, known: bool :| Entered(m, m', jobName, known) {
      EnteredKeeps(m, m', jobName, known);
    } else if token: nat, ok: bool :| Settled(m, m', token, ok) {
      SettledKeeps(m, m', token, ok);
    } else if token: nat, ok: bool :| CalledBack(m, m', token, ok) {
      CalledBackKeeps(m, m', token, ok);
    } else if token: nat :| Connected(m, m', token) {
      ConnectedKeeps(m, m', token);
    } else {
      var token: nat :| Handled(m, m', token);
      HandledKeeps(m, m', token);
    }
  }

  lemma {:induction false} InvAlways(b: seq<Moment>, k: nat)
    requires Behaviour(b) && k < |b|
    ensures Inv(b[k])
  {
    if k == 0 {
      assert Inv(Idle());
    } else {
      InvAlways(b, k - 1);
      assert StepAt(b, k);
      NextKeeps(b[k - 1], b[k]);
    }
  }

  /** At every moment of every interleaving a job name is EXECUTING exactly when a run is inside its
      job, and two runs inside one job are one run. */
  lemma MutualExclusion(b: seq<Moment>, k: nat, jobName: string)
    requires Behaviour(b) && k < |b|
    ensures Executing(b[k].states, jobName) <==> exists token: nat :: Running(b[k].awaits, token, jobName)
    ensures forall x: nat, y: nat :: Running(b[k].awaits, x, jobName) && Running(b[k].awaits, y, jobName) ==> x == y
  {
    InvAlways(b, k);
    assert Executing(b[k].states, jobName) <==> SomeRuns(b[k].awaits, jobName);
  }

  /** A run inside its job was inside it one step before, in the same stage or the one before. */
  lemma StageOrigin(m: Moment, m': Moment, token: nat)
    requires Next(m, m') && token < m.next && InJobAt(m', token)
    ensures m.next <= m'.next && InJobAt(m, token) && m.awaits[token].jobName == m'.awaits[token].jobName
    ensures m.awaits[token].stage != Connecting ==> m'.awaits[token].stage != Connecting
  {
  }

  lemma NextGrows(m: Moment, m': Moment)
    requires Next(m, m')
    ensures m.next <= m'.next
  {
  }

  /** From its connect until it leaves the job, a run finds the shared client in the session it opened:
      no other run connects in between. */
  lemma {:induction false} SessionHeld(b: seq<Moment>, i: nat, j: nat, token: nat)
    requires Behaviour(b) && i <= j < |b|
    requires InJobAt(b[i], token) && b[i].awaits[token].stage != Connecting && InJobAt(b[j], token)
    ensures b[j].awaits[token].stage != Connecting && b[j].awaits[token].jobName == b[i].awaits[token].jobName
    ensures b[i].awaits[token].jobName in b[j].session && b[j].session[b[i].awaits[token].jobName] == token
    decreases j
  {
    InvAlways(b, j);
    if i < j {
      UsedLater(b, i, j - 1, token);
      assert StepAt(b, j);
      StageOrigin(b[j - 1], b[j], token);
      SessionHeld(b, i, j - 1, token);
    }
  }

  /** A token in use was handed out, and stays so. */
  lemma {:induction false} UsedLater(b: seq<Moment>, i: nat, j: nat, token: nat)
    requires Behaviour(b) && i <= j < |b| && token in b[i].awaits
    ensures token < b[j].next
    decreases j
  {
    if i == j {
      InvAlways(b, i);
    } else {
      UsedLater(b, i, j - 1, token);
      assert StepAt(b, j);
      NextGrows(b[j - 1], b[j]);
    }
  }

  /** At every moment, each answered request got a callback: exactly one if none threw, two at most. */
  lemma EveryRequestCalledBack(b: seq<Moment>, k: nat, token: nat)
    requires Behaviour(b) && k < |b| && token < b[k].next && token !in b[k].awaits
    ensures token in b[k].attempts && 1 <= b[k].attempts[token] <= 2
    ensures token !in b[k].refused ==> b[k].attempts[token] == 1
  {
    InvAlways(b, k);
    assert CountOk(b[k].awaits, token, b[k].attempts[token], token in b[k].refused);
  }

  // ---------------------------------------------------------------- the controller

  class JobController {
    /** `this.states`. */
    var states: States
    var awaits: Awaits
    var next: nat
    var session: map<string, nat>
    ghost var attempts: map<nat, nat>
    ghost var refused: set<nat>

    ghost function Now(): Moment
      reads this
    {
      Moment(states, awaits, next, session, attempts, refused)
    }

    ghost predicate Valid()
      reads this
    {
      Inv(Now())
    }

    constructor ()
      ensures Valid() && Now() == Idle()
    {
      states, awaits, next, session, attempts, refused := map[], map[], 0, map[], map[], {};
    }

    method Execute(jobName: string, known: bool) returns (token: nat)
      requires Valid()
      modifies this
      ensures Valid() && token == old(next) && Entered(old(Now()), Now(), jobName, known)
      ensures known && !(jobName in old(states) && old(states)[jobName] == EXECUTING) ==>
                && states == old(states)[jobName := EXECUTING]
                && awaits == old(awaits)[token := InJob(jobName, Connecting)] && attempts == old(attempts)[token := 0]
      ensures known && jobName in old(states) && old(states)[jobName] == EXECUTING ==>
                && states == old(states) && awaits == old(awaits)[token := InBusyCallback]
                && attempts == old(attempts)[token := 1]
      ensures !known ==>
                && states == old(states) && awaits == old(awaits)[token := InFailCallback]
                && attempts == old(attempts)[token := 1]
    {
      token := next;
      next := next + 1;
      if !known {
        awaits, attempts := awaits[token := InFailCallback], attempts[token := 1];
      } else if !(jobName in states && states[jobName] == EXECUTING) {
        states := states[jobName := EXECUTING];
        awaits, attempts := awaits[token := InJob(jobName, Connecting)], attempts[token := 0];
      } else {
        awaits, attempts := awaits[token := InBusyCallback], attempts[token := 1];
      }
      EnteredKeeps(old(Now()), Now(), jobName, known);
    }

    method JobSettled(token: nat, ok: bool)
      requires Valid() && InJobAt(Now(), token)
      modifies this
      ensures Valid() && Settled(old(Now()), Now(), token, ok)
      ensures ok ==> states == old(states)[old(awaits)[token].jobName := SUCCESS]
      ensures !ok ==> states == old(states)[old(awaits)[token].jobName := FAIL]
      ensures awaits == old(awaits)[token := InRunCallback] && attempts == old(attempts)[token := 1]
    {
      var jobName := awaits[token].jobName;
      if ok {
        states := states[jobName := SUCCESS];
      }
      states := states[jobName := if ok then SUCCESS else FAIL];
      awaits, attempts := awaits[token := InRunCallback], attempts[token := 1];
      assert old(states)[jobName := SUCCESS][jobName := SUCCESS] == old(states)[jobName := SUCCESS];
      SettledKeeps(old(Now()), Now(), token, ok);
    }

    method CallbackSettled(token: nat, ok: bool)
      requires Valid() && token in awaits && !awaits[token].InJob?
      modifies this
      ensures Valid() && CalledBack(old(Now()), Now(), token, ok) && states == old(states)
      ensures !ok && old(awaits)[token] == InBusyCallback ==>
                awaits == old(awaits)[token := InFailCallback] && attempts == old(attempts)[token := 2]
      ensures ok || old(awaits)[token] != InBusyCallback ==>
                awaits == old(awaits) - {token} && attempts == old(attempts)
    {
      if !ok {
        refused := refused + {token};
      }
      if !ok && awaits[token].InBusyCallback? {
        awaits, attempts := awaits[token := InFailCallback], attempts[token := 2];
      } else {
        awaits := awaits - {token};
      }
      CalledBackKeeps(old(Now()), Now(), token, ok);
    }

    /** `FtpJob.execute`, past `_before`. */
    method FtpConnected(token: nat)
      requires Valid() && InJobAt(Now(), token) && awaits[token].stage == Connecting
      modifies this
      ensures Valid() && Connected(old(Now()), Now(), token) && states == old(states)
      ensures session == old(session)[old(awaits)[token].jobName := token]
      ensures awaits == old(awaits)[token := InJob(old(awaits)[token].jobName, Handling)]
    {
      var jobName := awaits[token].jobName;
      session := session[jobName := token];
      awaits := awaits[token := InJob(jobName, Handling)];
      ConnectedKeeps(old(Now()), Now(), token);
    }

    /** `FtpJob.execute`, past `handle`: the session that `_after` closes is the one this run connected. */
    method FtpHandled(token: nat) returns (closed: nat)
      requires Valid() && InJobAt(Now(), token) && awaits[token].stage == Handling
      modifies this
      ensures Valid() && closed == token && Handled(old(Now()), Now(), token) && states == old(states)
      ensures session == old(session) && awaits == old(awaits)[token := InJob(old(awaits)[token].jobName, Ending)]
    {
      closed := session[awaits[token].jobName];
      awaits := awaits[token := InJob(awaits[token].jobName, Ending)];
      HandledKeeps(old(Now()), Now(), token);
    }

    /** The manual reset endpoint forgets the state of one job. It keeps the controller valid exactly
        when that job is not executing. */
    method UpdateColispriveTrackingJobStates()
      requires Valid()
      modifies this`states
      ensures states == old(states) - {COLISPRIVE}
      ensures Valid() <==> !Executing(old(states), COLISPRIVE)
    {
      if COLISPRIVE in states {
        states := states - {COLISPRIVE};
      }
      assert forall j :: j != COLISPRIVE ==> (Executing(states, j) <==> Executing(old(states), j));
    }
  }
}
