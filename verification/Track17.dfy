/** Registering tracking numbers with 17TRACK: at most ten tries per number, forty numbers per call.

    The job is not awaited by the dispatcher, so runs overlap. Each run fetches copies of rows, and saves
    them whole after each answered call; rows are added meanwhile. A step is what happens between two
    awaits of one run. */
module Track17 {
  import opened Chunks
  import opened Sequences

  const MAX_REGISTER_COUNT: nat := 10
  const TAKE: nat := 10_000
  const NUMBERS_PER_CALL: nat := 40

  datatype RegisterStatus = READY | SUCCESS | FAILED

  /** Saving an undefined reason leaves the stored one. */
  datatype Reason = Null | Undefined | Text(text: string)

  datatype Request = Request(
    trackingNumber: string, platform: string, createdAt: int,
    registerStatus: RegisterStatus, registerCount: nat, registerFailedReason: Reason)

  /** What 17TRACK answers; a code other than 0 refuses the whole call. */
  datatype Answer = Answer(code: int, accepted: set<string>, rejected: map<string, string>)

  /** A copy of row `id` in the memory of a run; `seen` is how often the row had been saved when it was fetched. */
  datatype Held = Held(id: nat, copy: Request, seen: nat)

  /** A run: the chunk it is about to save, empty while it waits for an answer, and the chunks to come. */
  datatype Run = Run(saving: seq<Held>, todo: seq<seq<Held>>)

  /** The table, and what happened to each row: `saves` and `answers` count the saves and the calls answered
      with code 0 that included it, `lost` those of the calls whose run ended before it saved, and `stale`
      holds the rows saved at least once from a copy fetched before another save. `completed` counts the
      chunks saved. */
  datatype State = State(
    rows: seq<Request>, runs: map<nat, Run>,
    saves: seq<nat>, answers: seq<nat>, lost: seq<nat>, stale: set<nat>, completed: nat)

  // ---------------------------------------------------------------- what a run does

  predicate Eligible(r: Request, startDate: int, endDate: int) {
    r.registerStatus != SUCCESS && r.registerCount < MAX_REGISTER_COUNT && startDate <= r.createdAt <= endDate
  }

  /** A request after a call with code 0 that included it. */
  function Registered(r: Request, a: Answer): Request {
    var counted := r.(registerCount := r.registerCount + 1);
    if r.trackingNumber in a.accepted then counted.(registerStatus := SUCCESS)
    else counted.(registerStatus := FAILED,
                  registerFailedReason := if r.trackingNumber in a.rejected then Text(a.rejected[r.trackingNumber])
                  else Undefined)
  }

  /** The row after the copy was saved over it. */
  function Saved(row: Request, copy: Request): Request {
    if copy.registerFailedReason.Undefined? then copy.(registerFailedReason := row.registerFailedReason) else copy
  }

  function IdsOf(chunk: seq<Held>): set<nat> { set h | h in chunk :: h.id }

  predicate DistinctIds(hs: seq<Held>) { forall i, j :: 0 <= i < j < |hs| ==> hs[i].id != hs[j].id }

  /** One more for each of the ids. */
  function Bump(ns: seq<nat>, ids: set<nat>): (r: seq<nat>)
    ensures |r| == |ns| && forall i :: 0 <= i < |ns| ==> r[i] == ns[i] + if i in ids then 1 else 0
  {
    seq(|ns|, i requires 0 <= i < |ns| => ns[i] + if i in ids then 1 else 0)
  }

  /** The rows after a chunk was saved. */
  function SaveAll(rows: seq<Request>, chunk: seq<Held>): seq<Request> {
    if chunk == [] then rows
    else
      var h, before := chunk[|chunk| - 1], SaveAll(rows, chunk[..|chunk| - 1]);
      if h.id < |before| then before[h.id := Saved(before[h.id], h.copy)] else before
  }

  function WithPlatform(hs: seq<Held>, platform: string): seq<Held> {
    if hs == [] then []
    else
      var n := |hs| - 1;
      WithPlatform(hs[..n], platform) + if hs[n].copy.platform == platform then [hs[n]] else []
  }

  /** Platform by platform, chunks of forty. */
  function ChunksOf(hs: seq<Held>, platforms: seq<string>): seq<seq<Held>> {
    if platforms == [] then []
    else
      var n := |platforms| - 1;
      ChunksOf(hs, platforms[..n]) + Chunk(WithPlatform(hs, platforms[n]), NUMBERS_PER_CALL)
  }

  /** What `find` may return: eligible rows, all of them unless that is more than it takes. */
  ghost predicate Found(rows: seq<Request>, ids: seq<nat>, startDate: int, endDate: int) {
    && Distinct(ids) && |ids| <= TAKE
    && (forall k :: 0 <= k < |ids| ==> ids[k] < |rows| && Eligible(rows[ids[k]], startDate, endDate))
    && (|ids| < TAKE ==> forall i: nat :: i < |rows| && Eligible(rows[i], startDate, endDate) ==> i in ids)
  }

  /** The query can always answer: with all eligible rows, or with 10,000 of them if there are more. */
  lemma {:induction false} AlwaysFound(rows: seq<Request>, startDate: int, endDate: int) returns (ids: seq<nat>)
    ensures Found(rows, ids, startDate, endDate)
    ensures forall k :: 0 <= k < |ids| ==> ids[k] < |rows|
  {
    if rows == [] {
      ids := [];
    } else {
      var n := |rows| - 1;
      ids := AlwaysFound(rows[..n], startDate, endDate);
      if |ids| < TAKE && Eligible(rows[n], startDate, endDate) { ids := ids + [n]; }
    }
  }

  function Copies(rows: seq<Request>, saves: seq<nat>, ids: seq<nat>): (hs: seq<Held>)
    requires |saves| == |rows| && forall k :: 0 <= k < |ids| ==> ids[k] < |rows|
    ensures |hs| == |ids| && forall k :: 0 <= k < |ids| ==> hs[k] == Held(ids[k], rows[ids[k]], saves[ids[k]])
  {
    seq(|ids|, k requires 0 <= k < |ids| => Held(ids[k], rows[ids[k]], saves[ids[k]]))
  }

  function Answered(chunk: seq<Held>, a: Answer): (r: seq<Held>)
    ensures |r| == |chunk| && forall k :: 0 <= k < |chunk| ==> r[k] == chunk[k].(copy := Registered(chunk[k].copy, a))
  {
    seq(|chunk|, k requires 0 <= k < |chunk| => chunk[k].(copy := Registered(chunk[k].copy, a)))
  }

  // ---------------------------------------------------------------- all interleavings

  /** The collecting job adds a row. */
  predicate Inserted(s: State, s': State, r: Request) {
    && r.registerStatus == READY && r.registerCount == 0
    && s' == s.(rows := s.rows + [r], saves := s.saves + [0], answers := s.answers + [0], lost := s.lost + [0])
  }

  /** A run has fetched its rows, with platforms read before. */
  ghost predicate Fetched(s: State, s': State, run: nat, ids: seq<nat>, startDate: int, endDate: int,
                          platforms: seq<string>)
  {
    && run !in s.runs && |s.saves| == |s.rows| && Found(s.rows, ids, startDate, endDate) && Distinct(platforms)
    && s' == s.(runs := s.runs[run := Run([], ChunksOf(Copies(s.rows, s.saves, ids), platforms))])
  }

  predicate Waiting(s: State, run: nat) { run in s.runs && s.runs[run].saving == [] && s.runs[run].todo != [] }

  /** A call was answered: a code other than 0 ends the run, otherwise the copies are updated in memory. */
  predicate CallAnswered(s: State, s': State, run: nat, a: Answer) {
    && Waiting(s, run)
    && var chunk, rest := s.runs[run].todo[0], s.runs[run].todo[1..];
       s' == if a.code != 0 then s.(runs := s.runs - {run})
             else s.(runs := s.runs[run := Run(Answered(chunk, a), rest)], answers := Bump(s.answers, IdsOf(chunk)))
  }

  predicate Saving(s: State, run: nat) { run in s.runs && s.runs[run].saving != [] }

  /** The ids of the copies that another save has overtaken. */
  function Overtaken(saves: seq<nat>, chunk: seq<Held>): set<nat> {
    set h | h in chunk && h.id < |saves| && saves[h.id] != h.seen :: h.id
  }

  predicate ChunkSaved(s: State, s': State, run: nat) {
    && Saving(s, run)
    && var chunk := s.runs[run].saving;
       s' == s.(rows := SaveAll(s.rows, chunk), runs := s.runs[run := Run([], s.runs[run].todo)],
                saves := Bump(s.saves, IdsOf(chunk)), stale := s.stale + Overtaken(s.saves, chunk),
                completed := s.completed + 1)
  }

  /** A run ends: it is done, or it dies, or a call or a save throws. */
  predicate Ended(s: State, s': State, run: nat) {
    run in s.runs && s' == s.(runs := s.runs - {run}, lost := Bump(s.lost, IdsOf(s.runs[run].saving)))
  }

  ghost predicate Next(s: State, s': State) {
    || (exists r: Request :: Inserted(s, s', r))
    || (exists run: nat, ids: seq<nat>, start: int, end: int, platforms: seq<string> ::
        Fetched(s, s', run, ids, start, end, platforms))
    || (exists run: nat, a: Answer :: CallAnswered(s, s', run, a))
    || (exists run: nat :: ChunkSaved(s, s', run))
    || (exists run: nat :: Ended(s, s', run))
  }

  function Empty(): State { State([], map[], [], [], [], {}, 0) }

  ghost predicate StepAt(b: seq<State>, k: nat) { 0 < k < |b| ==> Next(b[k - 1], b[k]) }

  ghost predicate Behaviour(b: seq<State>) { |b| > 0 && b[0] == Empty() && forall k: nat :: StepAt(b, k) }

  // ---------------------------------------------------------------- the invariant

  /** A copy made when the count was `base`. While its row is not stale the two agree; once it is, the copy
      is behind. As long as nobody saved the row meanwhile, it is not finished and still counts `base`. */
  predicate Behind(s: State, id: nat, base: int, seen: nat) {
    && id < |s.rows| && id < |s.saves| && base <= seen <= s.saves[id]
    && (id !in s.stale ==> base == seen) && (id in s.stale ==> base < s.saves[id])
    && (seen == s.saves[id] ==> s.rows[id].registerStatus != SUCCESS && s.rows[id].registerCount == base)
  }

  predicate WaitingOk(s: State, h: Held) {
    && Behind(s, h.id, h.copy.registerCount, h.seen) && h.copy.registerCount < MAX_REGISTER_COUNT
    && h.copy.registerStatus != SUCCESS
  }

  predicate SavingOk(s: State, h: Held) {
    && Behind(s, h.id, h.copy.registerCount - 1, h.seen) && 1 <= h.copy.registerCount <= MAX_REGISTER_COUNT
    && h.copy.registerStatus != READY
  }

  function AllHeld(run: Run): seq<Held> { run.saving + Flatten(run.todo) }

  ghost predicate RunOk(s: State, run: Run) {
    && DistinctIds(AllHeld(run)) && |run.saving| <= NUMBERS_PER_CALL
    && (forall k :: 0 <= k < |run.todo| ==> 1 <= |run.todo[k]| <= NUMBERS_PER_CALL)
    && (forall h :: h in run.saving ==> SavingOk(s, h))
    && (forall h :: h in Flatten(run.todo) ==> WaitingOk(s, h))
  }

  /** The runs that got an answer for the row and have not saved it. */
  function Pending(runs: map<nat, Run>, id: nat): set<nat> { set run | run in runs && id in IdsOf(runs[run].saving) }

  ghost predicate RowOk(s: State, i: nat)
    requires i < |s.rows| == |s.saves| == |s.answers| == |s.lost|
  {
    && s.rows[i].registerCount <= MAX_REGISTER_COUNT && s.rows[i].registerCount <= s.saves[i]
    && (i in s.stale <==> s.rows[i].registerCount < s.saves[i])
    && s.answers[i] == s.saves[i] + s.lost[i] + |Pending(s.runs, i)|
  }

  ghost predicate RowsOk(s: State) {
    && |s.rows| == |s.saves| == |s.answers| == |s.lost| && (forall i :: i in s.stale ==> i < |s.rows|)
    && forall i: nat :: i < |s.rows| ==> RowOk(s, i)
  }

  ghost predicate RunsOk(s: State) { forall run :: run in s.runs ==> RunOk(s, s.runs[run]) }

  function Sum(ns: seq<nat>): nat { if ns == [] then 0 else Sum(ns[..|ns| - 1]) + ns[|ns| - 1] }

  ghost predicate Inv(s: State) { RowsOk(s) && RunsOk(s) && s.completed <= Sum(s.saves) }

  // ---------------------------------------------------------------- chunks of what was fetched

  lemma {:induction false} FlattenConcat(a: seq<seq<Held>>, b: seq<seq<Held>>)
    ensures Flatten(a + b) == Flatten(a) + Flatten(b)
  {
    if a == [] {
      assert a + b == b;
    } else {
      assert (a + b)[1..] == a[1..] + b;
      FlattenConcat(a[1..], b);
    }
  }

  lemma {:induction false} WithPlatformIsFilter(hs: seq<Held>, platform: string)
    ensures forall h :: h in WithPlatform(hs, platform) <==> h in hs && h.copy.platform == platform
    ensures DistinctIds(hs) ==> DistinctIds(WithPlatform(hs, platform))
  {
    if hs != [] {
      var n := |hs| - 1;
      WithPlatformIsFilter(hs[..n], platform);
      if DistinctIds(hs) {
        forall h | h in WithPlatform(hs[..n], platform) ensures h.id != hs[n].id {
          var k :| 0 <= k < n && hs[..n][k] == h;
          assert hs[k] == h;
        }
      }
    }
  }

  /** Each fetched copy of a handled platform is in exactly one chunk, and chunks have 1 to 40 copies. */
  lemma {:induction false} ChunksOfPartition(hs: seq<Held>, platforms: seq<string>)
    requires DistinctIds(hs) && Distinct(platforms)
    ensures var cs := ChunksOf(hs, platforms);
            && (forall k :: 0 <= k < |cs| ==> 1 <= |cs[k]| <= NUMBERS_PER_CALL)
            && (forall h :: h in Flatten(cs) <==> h in hs && h.copy.platform in platforms)
            && DistinctIds(Flatten(cs))
  {
    if platforms != [] {
      var n := |platforms| - 1;
      var mine := WithPlatform(hs, platforms[n]);
      ChunksOfPartition(hs, platforms[..n]);
      WithPlatformIsFilter(hs, platforms[n]);
      ChunkPartitions(mine, NUMBERS_PER_CALL);
      FlattenConcat(ChunksOf(hs, platforms[..n]), Chunk(mine, NUMBERS_PER_CALL));
      assert platforms == platforms[..n] + [platforms[n]];
      DistinctConcat(hs, Flatten(ChunksOf(hs, platforms[..n])), mine);
    }
  }

  lemma DistinctConcat(hs: seq<Held>, a: seq<Held>, b: seq<Held>)
    requires DistinctIds(hs) && DistinctIds(a) && DistinctIds(b)
    requires forall h :: h in a || h in b ==> h in hs
    requires forall h :: h in a ==> h !in b
    ensures DistinctIds(a + b)
  {
    forall i, j | 0 <= i < |a| && 0 <= j < |b| ensures a[i].id != b[j].id {
      assert a[i] in a && b[j] in b;
      var k :| 0 <= k < |hs| && hs[k] == a[i];
      var l :| 0 <= l < |hs| && hs[l] == b[j];
      assert k != l;
    }
  }

  // ---------------------------------------------------------------- one save

  lemma LastIsNew(chunk: seq<Held>)
    requires DistinctIds(chunk) && chunk != []
    ensures var front, last := chunk[..|chunk| - 1], chunk[|chunk| - 1];
            && DistinctIds(front) && last.id !in IdsOf(front) && IdsOf(chunk) == IdsOf(front) + {last.id}
            && forall h :: h in chunk <==> h in front || h == last
  {
    var n := |chunk| - 1;
    assert chunk == chunk[..n] + [chunk[n]];
    forall h | h in chunk[..n] ensures h.id != chunk[n].id {
      var k :| 0 <= k < n && chunk[..n][k] == h;
      assert chunk[k] == h;
    }
  }

  lemma {:induction false} SaveAllMeans(rows: seq<Request>, chunk: seq<Held>, i: nat)
    requires DistinctIds(chunk) && i < |rows|
    ensures |SaveAll(rows, chunk)| == |rows|
    ensures i !in IdsOf(chunk) ==> SaveAll(rows, chunk)[i] == rows[i]
    ensures forall h :: h in chunk && h.id == i ==> SaveAll(rows, chunk)[i] == Saved(rows[i], h.copy)
  {
    if chunk != [] {
      LastIsNew(chunk);
      SaveAllMeans(rows, chunk[..|chunk| - 1], i);
      forall h | h in chunk[..|chunk| - 1] ensures h.id in IdsOf(chunk[..|chunk| - 1]) {}
    }
  }

  lemma {:induction false} SaveAllLength(rows: seq<Request>, chunk: seq<Held>)
    ensures |SaveAll(rows, chunk)| == |rows|
  {
    if chunk != [] { SaveAllLength(rows, chunk[..|chunk| - 1]); }
  }

  lemma InFlattenTail(todo: seq<seq<Held>>)
    requires todo != []
    ensures Flatten(todo) == todo[0] + Flatten(todo[1..])
  {
  }

  lemma PendingMore(runs: map<nat, Run>, run: nat, r: Run, id: nat)
    requires run in runs && id !in IdsOf(runs[run].saving) && id in IdsOf(r.saving)
    ensures |Pending(runs[run := r], id)| == |Pending(runs, id)| + 1
  {
    assert Pending(runs[run := r], id) == Pending(runs, id) + {run};
  }

  lemma PendingLess(runs: map<nat, Run>, runs': map<nat, Run>, run: nat, id: nat)
    requires run in runs && id in IdsOf(runs[run].saving)
    requires forall q :: q in runs' && q != run ==> q in runs && runs'[q] == runs[q]
    requires forall q :: q in runs && q != run ==> q in runs'
    requires run in runs' ==> id !in IdsOf(runs'[run].saving)
    ensures |Pending(runs', id)| + 1 == |Pending(runs, id)|
  {
    assert Pending(runs, id) == Pending(runs', id) + {run};
  }

  lemma PendingSame(runs: map<nat, Run>, runs': map<nat, Run>, run: nat, id: nat)
    requires forall q :: q in runs' && q != run ==> q in runs && runs'[q] == runs[q]
    requires forall q :: q in runs && q != run ==> q in runs'
    requires run in runs ==> id !in IdsOf(runs[run].saving)
    requires run in runs' ==> id !in IdsOf(runs'[run].saving)
    ensures Pending(runs', id) == Pending(runs, id)
  {
  }

  // ---------------------------------------------------------------- every step keeps the invariant

  /** A step that leaves the rows and their histories alone keeps what the other runs hold. */
  lemma HeldKept(s: State, s': State, run: Run)
    requires RunOk(s, run) && s'.stale == s.stale
    requires |s.rows| <= |s'.rows| && |s.saves| <= |s'.saves|
    requires forall i :: 0 <= i < |s.rows| ==> s'.rows[i] == s.rows[i]
    requires forall i :: 0 <= i < |s.saves| ==> s'.saves[i] == s.saves[i]
    ensures RunOk(s', run)
  {
  }

  lemma {:induction false} SumAppend(ns: seq<nat>, n: nat)
    ensures Sum(ns + [n]) == Sum(ns) + n
  {
    assert (ns + [n])[..|ns|] == ns;
  }

  lemma InsertedKeeps(s: State, s': State, r: Request)
    requires Inv(s) && Inserted(s, s', r)
    ensures Inv(s')
  {
    forall run | run in s'.runs ensures RunOk(s', s'.runs[run]) { HeldKept(s, s', s.runs[run]); }
    SumAppend(s.saves, 0);
    forall i: nat | i < |s'.rows| ensures RowOk(s', i) {
      if i < |s.rows| { assert RowOk(s, i); } else { assert Pending(s'.runs, i) == {} by { NobodyHolds(s, i); } }
    }
  }

  lemma NobodyHolds(s: State, id: nat)
    requires RunsOk(s) && id >= |s.rows|
    ensures Pending(s.runs, id) == {}
  {
    forall run | run in s.runs ensures id !in IdsOf(s.runs[run].saving) { assert RunOk(s, s.runs[run]); }
  }

  lemma FetchedRunOk(s: State, ids: seq<nat>, startDate: int, endDate: int, platforms: seq<string>)
    requires RowsOk(s) && Found(s.rows, ids, startDate, endDate) && Distinct(platforms)
    ensures RunOk(s, Run([], ChunksOf(Copies(s.rows, s.saves, ids), platforms)))
  {
    var hs := Copies(s.rows, s.saves, ids);
    ChunksOfPartition(hs, platforms);
    var run := Run([], ChunksOf(hs, platforms));
    assert AllHeld(run) == Flatten(run.todo);
    forall h | h in Flatten(run.todo) ensures WaitingOk(s, h) {
      var k :| 0 <= k < |hs| && hs[k] == h;
      assert RowOk(s, ids[k]);
    }
  }

  lemma FetchedKeeps(s: State, s': State, run: nat, ids: seq<nat>, startDate: int, endDate: int, platforms: seq<string>)
    requires Inv(s) && Fetched(s, s', run, ids, startDate, endDate, platforms)
    ensures Inv(s')
  {
    FetchedRunOk(s, ids, startDate, endDate, platforms);
    forall q | q in s'.runs ensures RunOk(s', s'.runs[q]) { HeldKept(s, s', s'.runs[q]); }
    forall i: nat | i < |s'.rows| ensures RowOk(s', i) {
      assert RowOk(s, i);
      PendingSame(s.runs, s'.runs, run, i);
    }
  }

  lemma AnsweredIds(chunk: seq<Held>, a: Answer)
    ensures IdsOf(Answered(chunk, a)) == IdsOf(chunk)
  {
    var saving := Answered(chunk, a);
    forall i ensures i in IdsOf(saving) <==> i in IdsOf(chunk) {
      if i in IdsOf(saving) {
        var k :| 0 <= k < |saving| && saving[k].id == i;
        assert chunk[k] in chunk;
      }
      if i in IdsOf(chunk) {
        var k :| 0 <= k < |chunk| && chunk[k].id == i;
        assert saving[k] in saving;
      }
    }
  }

  lemma AnsweredHeld(s: State, chunk: seq<Held>, a: Answer)
    requires forall h :: h in chunk ==> WaitingOk(s, h)
    ensures forall h :: h in Answered(chunk, a) ==> SavingOk(s, h)
  {
    var saving := Answered(chunk, a);
    forall h | h in saving ensures SavingOk(s, h) {
      var k :| 0 <= k < |saving| && saving[k] == h;
      assert chunk[k] in chunk;
    }
  }

  lemma AnsweredDistinct(chunk: seq<Held>, rest: seq<Held>, a: Answer)
    requires DistinctIds(chunk + rest)
    ensures DistinctIds(Answered(chunk, a) + rest)
  {
    var all, all' := chunk + rest, Answered(chunk, a) + rest;
    assert |all'| == |all| && forall k :: 0 <= k < |all| ==> all'[k].id == all[k].id;
  }

  lemma AnsweredRunOk(s: State, run: Run, a: Answer)
    requires RunOk(s, run) && run.saving == [] && run.todo != []
    ensures RunOk(s, Run(Answered(run.todo[0], a), run.todo[1..]))
  {
    InFlattenTail(run.todo);
    assert AllHeld(run) == run.todo[0] + Flatten(run.todo[1..]);
    AnsweredHeld(s, run.todo[0], a);
    AnsweredDistinct(run.todo[0], Flatten(run.todo[1..]), a);
  }

  lemma AnswerKeeps(s: State, s': State, run: nat, a: Answer)
    requires Inv(s) && CallAnswered(s, s', run, a)
    ensures Inv(s')
  {
    var chunk := s.runs[run].todo[0];
    AnsweredRunOk(s, s.runs[run], a);
    AnsweredIds(chunk, a);
    forall q | q in s'.runs ensures RunOk(s', s'.runs[q]) {
      HeldKept(s, s', s'.runs[q]);
    }
    forall i: nat | i < |s'.rows| ensures RowOk(s', i) {
      assert RowOk(s, i);
      if a.code == 0 && i in IdsOf(chunk) {
        PendingMore(s.runs, run, s'.runs[run], i);
      } else {
        PendingSame(s.runs, s'.runs, run, i);
      }
    }
  }

  lemma EndedKeeps(s: State, s': State, run: nat)
    requires Inv(s) && Ended(s, s', run)
    ensures Inv(s')
  {
    forall q | q in s'.runs ensures RunOk(s', s'.runs[q]) { HeldKept(s, s', s.runs[q]); }
    forall i: nat | i < |s'.rows| ensures RowOk(s', i) {
      assert RowOk(s, i);
      if i in IdsOf(s.runs[run].saving) {
        PendingLess(s.runs, s'.runs, run, i);
      } else {
        PendingSame(s.runs, s'.runs, run, i);
      }
    }
  }

  /** A saved row: behind for good when its copy was overtaken, and up to date otherwise. */
  lemma SavedRow(s: State, s': State, run: nat, h: Held)
    requires Inv(s) && ChunkSaved(s, s', run) && h in s.runs[run].saving
    ensures h.id < |s'.rows| == |s.rows| && s'.rows[h.id] == Saved(s.rows[h.id], h.copy)
    ensures s'.rows[h.id].registerCount == h.copy.registerCount <= MAX_REGISTER_COUNT
    ensures h.id in s'.stale <==> h.copy.registerCount < s.saves[h.id] + 1
    ensures h.copy.registerCount <= s.saves[h.id] + 1
  {
    var chunk := s.runs[run].saving;
    assert RunOk(s, s.runs[run]) && SavingOk(s, h);
    DistinctPrefix(chunk, Flatten(s.runs[run].todo));
    SaveAllMeans(s.rows, chunk, h.id);
    if h.id in Overtaken(s.saves, chunk) {
      var g :| g in chunk && g.id == h.id && s.saves[g.id] != g.seen;
      SameHeld(chunk, g, h);
    }
  }

  lemma SameHeld(chunk: seq<Held>, g: Held, h: Held)
    requires DistinctIds(chunk) && g in chunk && h in chunk && g.id == h.id
    ensures g == h
  {
    var i :| 0 <= i < |chunk| && chunk[i] == g;
    var j :| 0 <= j < |chunk| && chunk[j] == h;
    assert i == j;
  }

  lemma DistinctPrefix(a: seq<Held>, b: seq<Held>)
    requires DistinctIds(a + b)
    ensures DistinctIds(a) && DistinctIds(b)
    ensures forall g, h :: g in a && h in b ==> g.id != h.id
  {
    var all := a + b;
    forall i, j | 0 <= i < j < |b| ensures b[i].id != b[j].id { assert all[|a| + i] == b[i] && all[|a| + j] == b[j]; }
    forall i, j | 0 <= i < j < |a| ensures a[i].id != a[j].id { assert all[i] == a[i] && all[j] == a[j]; }
    forall g, h | g in a && h in b ensures g.id != h.id {
      var i :| 0 <= i < |a| && a[i] == g;
      var j :| 0 <= j < |b| && b[j] == h;
      assert all[i] == g && all[|a| + j] == h;
    }
  }

  lemma UnsavedRow(s: State, s': State, run: nat, i: nat)
    requires Inv(s) && ChunkSaved(s, s', run) && i < |s.rows| && i !in IdsOf(s.runs[run].saving)
    ensures |s'.rows| == |s.rows| && s'.rows[i] == s.rows[i] && (i in s'.stale <==> i in s.stale)
  {
    var chunk := s.runs[run].saving;
    assert RunOk(s, s.runs[run]);
    DistinctPrefix(chunk, Flatten(s.runs[run].todo));
    SaveAllMeans(s.rows, chunk, i);
  }

  /** What any run holds stays behind the rows when a chunk is saved. */
  lemma BehindKept(s: State, s': State, run: nat, id: nat, base: int, seen: nat)
    requires Inv(s) && ChunkSaved(s, s', run) && Behind(s, id, base, seen)
    ensures Behind(s', id, base, seen)
  {
    if id in IdsOf(s.runs[run].saving) {
      var h :| h in s.runs[run].saving && h.id == id;
      SavedRow(s, s', run, h);
    } else {
      UnsavedRow(s, s', run, id);
    }
  }

  lemma SaveKeepsRuns(s: State, s': State, run: nat)
    requires Inv(s) && ChunkSaved(s, s', run)
    ensures RunsOk(s')
  {
    forall q | q in s'.runs ensures RunOk(s', s'.runs[q]) {
      assert RunOk(s, s.runs[q]);
      forall h | h in s'.runs[q].saving ensures SavingOk(s', h) {
        assert SavingOk(s, h);
        BehindKept(s, s', run, h.id, h.copy.registerCount - 1, h.seen);
      }
      forall h | h in Flatten(s'.runs[q].todo) ensures WaitingOk(s', h) {
        assert WaitingOk(s, h);
        BehindKept(s, s', run, h.id, h.copy.registerCount, h.seen);
      }
      if q == run {
        DistinctPrefix(s.runs[q].saving, Flatten(s.runs[q].todo));
        assert AllHeld(s'.runs[q]) == Flatten(s.runs[q].todo);
      }
    }
  }

  lemma SaveKeepsRow(s: State, s': State, run: nat, i: nat)
    requires Inv(s) && ChunkSaved(s, s', run) && i < |s.rows|
    ensures |s'.rows| == |s'.saves| == |s'.answers| == |s'.lost| == |s.rows| && RowOk(s', i)
  {
    SaveAllLength(s.rows, s.runs[run].saving);
    assert RowOk(s, i);
    if i in IdsOf(s.runs[run].saving) {
      var h :| h in s.runs[run].saving && h.id == i;
      SavedRow(s, s', run, h);
      PendingLess(s.runs, s'.runs, run, i);
    } else {
      UnsavedRow(s, s', run, i);
      PendingSame(s.runs, s'.runs, run, i);
    }
  }

  lemma {:induction false} SumGrows(ns: seq<nat>, ids: set<nat>, i: nat)
    requires i in ids && i < |ns|
    ensures Sum(Bump(ns, ids)) > Sum(ns)
  {
    var n := |ns| - 1;
    assert Bump(ns, ids)[..n] == Bump(ns[..n], ids);
    if i == n { SumMonotone(ns[..n], ids); } else { SumGrows(ns[..n], ids, i); }
  }

  lemma {:induction false} SumMonotone(ns: seq<nat>, ids: set<nat>)
    ensures Sum(Bump(ns, ids)) >= Sum(ns)
  {
    if ns != [] {
      var n := |ns| - 1;
      assert Bump(ns, ids)[..n] == Bump(ns[..n], ids);
      SumMonotone(ns[..n], ids);
    }
  }

  lemma SaveKeeps(s: State, s': State, run: nat)
    requires Inv(s) && ChunkSaved(s, s', run)
    ensures Inv(s')
  {
    var chunk := s.runs[run].saving;
    SaveKeepsRuns(s, s', run);
    SaveAllLength(s.rows, chunk);
    forall i: nat | i < |s.rows| ensures RowOk(s', i) { SaveKeepsRow(s, s', run, i); }
    assert SavingOk(s, chunk[0]) by { assert RunOk(s, s.runs[run]) && chunk[0] in chunk; }
    SumGrows(s.saves, IdsOf(chunk), chunk[0].id);
  }

  lemma NextKeeps(s: State, s': State)
    requires Inv(s) && Next(s, s')
    ensures Inv(s')
  {
    if r: Request :| Inserted(s, s', r) {
      InsertedKeeps(s, s', r);
    } else if run: nat, ids: seq<nat>, start: int, end: int, platforms: seq<string> :|
      Fetched(s, s', run, ids, start, end, platforms) {
      FetchedKeeps(s, s', run, ids, start, end, platforms);
    } else if run: nat, a: Answer :| CallAnswered(s, s', run, a) {
      AnswerKeeps(s, s', run, a);
    } else if run: nat :| ChunkSaved(s, s', run) {
      SaveKeeps(s, s', run);
    } else {
      var run: nat :| Ended(s, s', run);
      EndedKeeps(s, s', run);
    }
  }

  lemma {:induction false} InvAlways(b: seq<State>, k: nat)
    requires Behaviour(b) && k < |b|
    ensures Inv(b[k])
  {
    if k == 0 {
      assert Inv(Empty());
    } else {
      InvAlways(b, k - 1);
      assert StepAt(b, k);
      NextKeeps(b[k - 1], b[k]);
    }
  }

  // ---------------------------------------------------------------- what always holds

  /** Whatever overlaps, a count never passes ten, nor the saves, nor the answered calls that included the row. */
  lemma CountBounded(b: seq<State>, k: nat, i: nat)
    requires Behaviour(b) && k < |b| && i < |b[k].rows|
    ensures b[k].rows[i].registerCount <= MAX_REGISTER_COUNT
    ensures |b[k].saves| == |b[k].answers| == |b[k].rows|
    ensures b[k].rows[i].registerCount <= b[k].saves[i] <= b[k].answers[i]
  {
    InvAlways(b, k);
    assert RowOk(b[k], i);
  }

  /** Every call carries 1 to 40 different numbers, of copies that were not finished and had tries left. */
  lemma CallsAreSmall(b: seq<State>, k: nat, run: nat)
    requires Behaviour(b) && k < |b| && Waiting(b[k], run)
    ensures var call := b[k].runs[run].todo[0];
            && 1 <= |call| <= NUMBERS_PER_CALL && DistinctIds(call)
            && forall h :: h in call ==> h.copy.registerStatus != SUCCESS && h.copy.registerCount < MAX_REGISTER_COUNT
  {
    InvAlways(b, k);
    var r := b[k].runs[run];
    assert RunOk(b[k], r);
    DistinctPrefix(r.saving, Flatten(r.todo));
    InFlattenTail(r.todo);
    DistinctPrefix(r.todo[0], Flatten(r.todo[1..]));
    forall h | h in r.todo[0] ensures WaitingOk(b[k], h) { assert h in Flatten(r.todo); }
  }

  // ---------------------------------------------------------------- lost updates, exactly

  /** A save of row i from a copy that another save of it overtook. */
  predicate StaleSave(s: State, s': State, run: nat, i: nat) {
    ChunkSaved(s, s', run) && i in Overtaken(s.saves, s.runs[run].saving)
  }

  ghost predicate SomeStaleSave(s: State, s': State, i: nat) { exists run :: StaleSave(s, s', run, i) }

  lemma StaleStep(s: State, s': State, i: nat)
    requires Inv(s) && Next(s, s')
    ensures i in s'.stale <==> i in s.stale || SomeStaleSave(s, s', i)
  {
    if i in s'.stale && i !in s.stale {
      var run: nat :| ChunkSaved(s, s', run);
      assert StaleSave(s, s', run, i);
    }
  }

  ghost predicate StaleSaveAt(b: seq<State>, j: nat, i: nat) {
    j + 1 < |b| && SomeStaleSave(b[j], b[j + 1], i)
  }

  /** Up to moment k, some save of row i came from an overtaken copy. */
  ghost predicate EverStale(b: seq<State>, k: nat, i: nat) { exists j: nat :: j < k && StaleSaveAt(b, j, i) }

  /** A row is stale exactly when some save of it came from an overtaken copy. */
  lemma {:induction false} StaleExactly(b: seq<State>, k: nat, i: nat)
    requires Behaviour(b) && k < |b|
    ensures i in b[k].stale <==> EverStale(b, k, i)
  {
    if k > 0 {
      StaleExactly(b, k - 1, i);
      InvAlways(b, k - 1);
      assert StepAt(b, k);
      StaleStep(b[k - 1], b[k], i);
      if SomeStaleSave(b[k - 1], b[k], i) { assert StaleSaveAt(b, k - 1, i); }
      if EverStale(b, k - 1, i) {
        var j: nat :| j < k - 1 && StaleSaveAt(b, j, i);
        assert StaleSaveAt(b, j, i);
      }
    } else {
      assert b[0].stale == {};
    }
  }

  /** The count is the number of saves exactly when no save of the row came from an overtaken copy, and
      the number of answered calls exactly when, besides, no run was lost or is still between an answered
      call and its save. */
  lemma CountExactly(b: seq<State>, k: nat, i: nat)
    requires Behaviour(b) && k < |b| && i < |b[k].rows|
    ensures |b[k].saves| == |b[k].answers| == |b[k].lost| == |b[k].rows|
    ensures b[k].rows[i].registerCount == b[k].saves[i] <==> !EverStale(b, k, i)
    ensures b[k].rows[i].registerCount == b[k].answers[i] <==>
              !EverStale(b, k, i) && b[k].lost[i] == 0 && Pending(b[k].runs, i) == {}
  {
    InvAlways(b, k);
    StaleExactly(b, k, i);
    assert RowOk(b[k], i);
  }

  /** The run saves an overtaken copy of row i that its answer did not accept. */
  ghost predicate Reopens(s: State, s': State, run: nat, i: nat) {
    StaleSave(s, s', run, i) && exists h :: h in s.runs[run].saving && h.id == i && h.copy.registerStatus == FAILED
  }

  lemma ReopenedBySave(s: State, s': State, run: nat, i: nat)
    requires Inv(s) && ChunkSaved(s, s', run) && i < |s.rows| && s.rows[i].registerStatus == SUCCESS
    ensures i < |s'.rows| && (s'.rows[i].registerStatus != SUCCESS <==> Reopens(s, s', run, i))
  {
    var chunk := s.runs[run].saving;
    SaveAllLength(s.rows, chunk);
    if i in IdsOf(chunk) {
      var h :| h in chunk && h.id == i;
      SavedRow(s, s', run, h);
      assert RunOk(s, s.runs[run]) && SavingOk(s, h) && h.id in Overtaken(s.saves, chunk);
      DistinctPrefix(chunk, Flatten(s.runs[run].todo));
      forall g | g in chunk && g.id == i ensures g == h { SameHeld(chunk, g, h); }
    } else {
      UnsavedRow(s, s', run, i);
    }
  }

  /** A finished row is reopened by a step exactly when some run reopens it. */
  lemma ReopenedExactly(s: State, s': State, i: nat)
    requires Inv(s) && Next(s, s') && i < |s.rows| && s.rows[i].registerStatus == SUCCESS
    ensures i < |s'.rows|
    ensures s'.rows[i].registerStatus != SUCCESS <==> exists run :: Reopens(s, s', run, i)
  {
    if run: nat :| ChunkSaved(s, s', run) {
      ReopenedBySave(s, s', run, i);
      forall r | Reopens(s, s', r, i) ensures r == run { SameSaver(s, s', run, r); }
    } else {
      UntouchedByOthers(s, s', i);
    }
  }

  lemma SameSaver(s: State, s': State, run: nat, r: nat)
    requires ChunkSaved(s, s', run) && ChunkSaved(s, s', r)
    ensures r == run
  {
    assert s'.runs[r].saving == [];
  }

  lemma UntouchedByOthers(s: State, s': State, i: nat)
    requires Next(s, s') && i < |s.rows| && !(exists run: nat :: ChunkSaved(s, s', run))
    ensures i < |s'.rows| && s'.rows[i] == s.rows[i]
  {
  }

  lemma EverStaleGrows(b: seq<State>, k: nat, i: nat)
    requires k > 0 && !EverStale(b, k, i)
    ensures !EverStale(b, k - 1, i) && !StaleSaveAt(b, k - 1, i)
  {
    forall j: nat | j < k - 1 ensures !StaleSaveAt(b, j, i) {}
  }

  /** SUCCESS is final for a row none of whose saves came from an overtaken copy. */
  lemma {:induction false} SuccessFinal(b: seq<State>, j: nat, k: nat, i: nat)
    requires Behaviour(b) && j <= k < |b| && i < |b[j].rows| && b[j].rows[i].registerStatus == SUCCESS
    requires !EverStale(b, k, i)
    ensures i < |b[k].rows| && b[k].rows[i].registerStatus == SUCCESS
    decreases k
  {
    if j < k {
      EverStaleGrows(b, k, i);
      SuccessFinal(b, j, k - 1, i);
      InvAlways(b, k - 1);
      assert StepAt(b, k);
      ReopenedExactly(b[k - 1], b[k], i);
      assert !SomeStaleSave(b[k - 1], b[k], i);
    }
  }

  // ---------------------------------------------------------------- the bound on the work

  function Tries(r: Request): nat {
    if r.registerStatus == SUCCESS || r.registerCount > MAX_REGISTER_COUNT then 0
    else MAX_REGISTER_COUNT - r.registerCount
  }

  /** The tries left over all unfinished requests. */
  function Work(rows: seq<Request>): nat {
    if rows == [] then 0 else Work(rows[..|rows| - 1]) + Tries(rows[|rows| - 1])
  }

  lemma {:induction false} WorkMonotone(rows: seq<Request>, rows': seq<Request>)
    requires |rows| == |rows'| && forall i :: 0 <= i < |rows| ==> Tries(rows'[i]) <= Tries(rows[i])
    ensures Work(rows') <= Work(rows)
  {
    if rows != [] {
      var n := |rows| - 1;
      forall i | 0 <= i < n ensures Tries(rows'[..n][i]) <= Tries(rows[..n][i]) {
        assert rows'[..n][i] == rows'[i] && rows[..n][i] == rows[i];
      }
      WorkMonotone(rows[..n], rows'[..n]);
    }
  }

  /** The number of tries left falls strictly when one row loses a try and none gains one. */
  lemma {:induction false} WorkFalls(rows: seq<Request>, rows': seq<Request>, k: nat)
    requires |rows| == |rows'| && forall i :: 0 <= i < |rows| ==> Tries(rows'[i]) <= Tries(rows[i])
    requires k < |rows| && Tries(rows'[k]) < Tries(rows[k])
    ensures Work(rows') < Work(rows)
  {
    var n := |rows| - 1;
    forall i | 0 <= i < n ensures Tries(rows'[..n][i]) <= Tries(rows[..n][i]) {
      assert rows'[..n][i] == rows'[i] && rows[..n][i] == rows[i];
    }
    if k == n { WorkMonotone(rows[..n], rows'[..n]); } else { WorkFalls(rows[..n], rows'[..n], k); }
  }

  /** A saved row loses a try exactly when it is unfinished, has one left, and its copy is finished or
      counts more than the row. */
  lemma RowLosesTry(s: State, s': State, run: nat, h: Held)
    requires Inv(s) && ChunkSaved(s, s', run) && h in s.runs[run].saving
    ensures h.id < |s.rows| == |s'.rows|
    ensures Tries(s'.rows[h.id]) < Tries(s.rows[h.id]) <==>
              && s.rows[h.id].registerStatus != SUCCESS && s.rows[h.id].registerCount < MAX_REGISTER_COUNT
              && (h.copy.registerStatus == SUCCESS || h.copy.registerCount > s.rows[h.id].registerCount)
  {
    SavedRow(s, s', run, h);
  }

  /** A copy that no other save overtook always uses up a try of its row. */
  lemma FreshCopyUsesTry(s: State, s': State, run: nat, h: Held)
    requires Inv(s) && ChunkSaved(s, s', run) && h in s.runs[run].saving
             && h.id !in Overtaken(s.saves, s.runs[run].saving)
    ensures h.id < |s.rows| == |s'.rows| && Tries(s'.rows[h.id]) < Tries(s.rows[h.id])
  {
    assert RunOk(s, s.runs[run]) && SavingOk(s, h);
    RowLosesTry(s, s', run, h);
  }

  /** A saved chunk with no overtaken copy uses up tries, whatever happened to other rows: the total of
      tries left falls. */
  lemma SaveUsesTries(s: State, s': State, run: nat)
    requires Inv(s) && ChunkSaved(s, s', run) && Overtaken(s.saves, s.runs[run].saving) == {}
    ensures Work(s'.rows) < Work(s.rows)
  {
    var chunk := s.runs[run].saving;
    SaveAllLength(s.rows, chunk);
    forall i | 0 <= i < |s.rows|
      ensures Tries(s'.rows[i]) <= Tries(s.rows[i]) && (i in IdsOf(chunk) ==> Tries(s'.rows[i]) < Tries(s.rows[i]))
    {
      if i in IdsOf(chunk) {
        var h :| h in chunk && h.id == i;
        FreshCopyUsesTry(s, s', run, h);
      } else {
        UnsavedRow(s, s', run, i);
      }
    }
    assert RunOk(s, s.runs[run]) && SavingOk(s, chunk[0]) && chunk[0].id in IdsOf(chunk);
    WorkFalls(s.rows, s'.rows, chunk[0].id);
  }

  /** The tries a chunk would add, row by row, if it were saved over these rows. */
  function Gain(rows: seq<Request>, chunk: seq<Held>): int
    requires forall h :: h in chunk ==> h.id < |rows|
  {
    if chunk == [] then 0
    else
      var n := |chunk| - 1;
      Gain(rows, chunk[..n]) + Tries(chunk[n].copy) - Tries(rows[chunk[n].id])
  }

  lemma {:induction false} WorkUpdate(rows: seq<Request>, i: nat, r: Request)
    requires i < |rows|
    ensures Work(rows[i := r]) == Work(rows) - Tries(rows[i]) + Tries(r)
  {
    var n := |rows| - 1;
    if i == n {
      assert rows[i := r][..n] == rows[..n];
    } else {
      assert rows[i := r][..n] == rows[..n][i := r];
      WorkUpdate(rows[..n], i, r);
    }
  }

  lemma {:induction false} WorkAfterSave(rows: seq<Request>, chunk: seq<Held>)
    requires DistinctIds(chunk) && forall h :: h in chunk ==> h.id < |rows|
    ensures Work(SaveAll(rows, chunk)) == Work(rows) + Gain(rows, chunk)
  {
    if chunk != [] {
      var n := |chunk| - 1;
      var before, last := SaveAll(rows, chunk[..n]), chunk[n];
      LastIsNew(chunk);
      WorkAfterSave(rows, chunk[..n]);
      SaveAllMeans(rows, chunk[..n], last.id);
      WorkUpdate(before, last.id, Saved(before[last.id], last.copy));
    }
  }

  /** The exact change of the tries left, from the rows and copies before the save: the total falls exactly
      when this sum is negative. */
  lemma SaveChangesWork(s: State, s': State, run: nat)
    requires Inv(s) && ChunkSaved(s, s', run)
    ensures forall h :: h in s.runs[run].saving ==> h.id < |s.rows|
    ensures Work(s'.rows) == Work(s.rows) + Gain(s.rows, s.runs[run].saving)
    ensures Work(s'.rows) < Work(s.rows) <==> Gain(s.rows, s.runs[run].saving) < 0
  {
    assert RunOk(s, s.runs[run]);
    forall h | h in s.runs[run].saving ensures h.id < |s.rows| { assert SavingOk(s, h); }
    DistinctPrefix(s.runs[run].saving, Flatten(s.runs[run].todo));
    WorkAfterSave(s.rows, s.runs[run].saving);
  }

  /** The saves that the counts do not show. */
  function Uncounted(rows: seq<Request>, saves: seq<nat>): int
    requires |rows| == |saves|
  {
    if rows == [] then 0
    else
      var n := |rows| - 1;
      Uncounted(rows[..n], saves[..n]) + saves[n] - rows[n].registerCount
  }

  lemma {:induction false} SavesAndTries(rows: seq<Request>, saves: seq<nat>)
    requires |rows| == |saves| && forall i :: 0 <= i < |rows| ==> rows[i].registerCount <= MAX_REGISTER_COUNT
    ensures Sum(saves) + Work(rows) <= MAX_REGISTER_COUNT * |rows| + Uncounted(rows, saves)
  {
    if rows != [] {
      var n := |rows| - 1;
      assert forall i :: 0 <= i < n ==> rows[..n][i] == rows[i];
      SavesAndTries(rows[..n], saves[..n]);
    }
  }

  lemma {:induction false} AllCounted(rows: seq<Request>, saves: seq<nat>)
    requires |rows| == |saves| && forall i :: 0 <= i < |rows| ==> rows[i].registerCount <= saves[i]
    ensures Uncounted(rows, saves) >= 0
    ensures Uncounted(rows, saves) == 0 <==> forall i :: 0 <= i < |rows| ==> rows[i].registerCount == saves[i]
  {
    if rows != [] {
      var n := |rows| - 1;
      assert forall i :: 0 <= i < n ==> rows[..n][i] == rows[i] && saves[..n][i] == saves[i];
      AllCounted(rows[..n], saves[..n]);
    }
  }

  /** A row none of whose saves came from an overtaken copy is saved at most ten times, and included in at
      most that many answered calls plus those whose run was lost or is waiting before its save. */
  lemma TriesBounded(b: seq<State>, k: nat, i: nat)
    requires Behaviour(b) && k < |b| && i < |b[k].rows| && !EverStale(b, k, i)
    ensures |b[k].saves| == |b[k].answers| == |b[k].lost| == |b[k].rows|
    ensures b[k].saves[i] <= MAX_REGISTER_COUNT
    ensures b[k].answers[i] <= MAX_REGISTER_COUNT + b[k].lost[i] + |Pending(b[k].runs, i)|
  {
    InvAlways(b, k);
    CountExactly(b, k, i);
    assert RowOk(b[k], i);
  }

  /** The completed chunks of all runs and the tries left stay within ten per request collected so far plus
      the uncounted saves, of which there are none exactly when no row was saved from an overtaken copy. */
  lemma WorkBounded(b: seq<State>, k: nat)
    requires Behaviour(b) && k < |b|
    ensures |b[k].saves| == |b[k].rows|
    ensures b[k].completed + Work(b[k].rows) <= MAX_REGISTER_COUNT * |b[k].rows| + Uncounted(b[k].rows, b[k].saves)
    ensures Uncounted(b[k].rows, b[k].saves) == 0 <==> forall i: nat :: i < |b[k].rows| ==> !EverStale(b, k, i)
  {
    var s := b[k];
    InvAlways(b, k);
    forall i: nat | i < |s.rows|
      ensures s.rows[i].registerCount <= MAX_REGISTER_COUNT && s.rows[i].registerCount <= s.saves[i]
      ensures s.rows[i].registerCount == s.saves[i] <==> !EverStale(b, k, i)
    {
      assert RowOk(s, i);
      CountExactly(b, k, i);
    }
    SavesAndTries(s.rows, s.saves);
    AllCounted(s.rows, s.saves);
  }

  // ---------------------------------------------------------------- when no two runs hold one row

  /** No row is held by two runs between fetch and save. */
  ghost predicate NoSharing(s: State) {
    forall p, q, g, h ::
      p in s.runs && q in s.runs && p != q && g in AllHeld(s.runs[p]) && h in AllHeld(s.runs[q]) ==> g.id != h.id
  }

  /** No copy was overtaken. */
  ghost predicate AllFresh(s: State) {
    && s.stale == {}
    && forall run, h :: run in s.runs && h in AllHeld(s.runs[run]) ==> h.id < |s.saves| && h.seen == s.saves[h.id]
  }

  lemma FreshSave(s: State, s': State, run: nat)
    requires run in s.runs && DistinctIds(AllHeld(s.runs[run])) && AllFresh(s) && NoSharing(s) && ChunkSaved(s, s', run)
    ensures AllFresh(s')
  {
    var r := s.runs[run];
    DistinctPrefix(r.saving, Flatten(r.todo));
    forall h | h in r.saving ensures h.seen == s.saves[h.id] { assert h in AllHeld(r); }
    forall q, h | q in s'.runs && h in AllHeld(s'.runs[q]) ensures h.id < |s'.saves| && h.seen == s'.saves[h.id] {
      if q == run { assert AllHeld(s'.runs[q]) == Flatten(r.todo); }
      assert h in AllHeld(s.runs[q]);
      forall g | g in r.saving ensures g.id != h.id { assert g in AllHeld(r); }
      assert h.id !in IdsOf(r.saving);
    }
  }

  lemma FreshAnswer(s: State, s': State, run: nat, a: Answer)
    requires Inv(s) && AllFresh(s) && CallAnswered(s, s', run, a)
    ensures AllFresh(s')
  {
    var chunk := s.runs[run].todo[0];
    InFlattenTail(s.runs[run].todo);
    forall q, h | q in s'.runs && h in AllHeld(s'.runs[q]) ensures h.id < |s'.saves| && h.seen == s'.saves[h.id] {
      if q == run && h in s'.runs[q].saving {
        var k :| 0 <= k < |chunk| && Answered(chunk, a)[k] == h;
        assert chunk[k] in AllHeld(s.runs[run]);
      } else {
        assert h in AllHeld(s.runs[q]);
      }
    }
  }

  lemma CopiesFresh(s: State, ids: seq<nat>, startDate: int, endDate: int, platforms: seq<string>)
    requires |s.saves| == |s.rows| && Found(s.rows, ids, startDate, endDate) && Distinct(platforms)
    ensures forall h :: h in Flatten(ChunksOf(Copies(s.rows, s.saves, ids), platforms)) ==>
            h.id < |s.saves| && h.seen == s.saves[h.id]
  {
    var hs := Copies(s.rows, s.saves, ids);
    ChunksOfPartition(hs, platforms);
    forall h | h in hs ensures h.id < |s.saves| && h.seen == s.saves[h.id] {
      var k :| 0 <= k < |hs| && hs[k] == h;
    }
  }

  lemma FreshFetch(s: State, s': State, run: nat, ids: seq<nat>, startDate: int, endDate: int, platforms: seq<string>)
    requires AllFresh(s) && Fetched(s, s', run, ids, startDate, endDate, platforms)
    ensures AllFresh(s')
  {
    CopiesFresh(s, ids, startDate, endDate, platforms);
    assert AllHeld(s'.runs[run]) == Flatten(s'.runs[run].todo);
  }

  lemma FreshSame(s: State, s': State)
    requires AllFresh(s) && s'.stale == s.stale && s.saves <= s'.saves
    requires forall run :: run in s'.runs ==> run in s.runs && s'.runs[run] == s.runs[run]
    ensures AllFresh(s')
  {
  }

  lemma FreshNext(s: State, s': State)
    requires Inv(s) && AllFresh(s) && NoSharing(s) && Next(s, s')
    ensures AllFresh(s')
  {
    if r: Request :| Inserted(s, s', r) {
      FreshSame(s, s');
    } else if run: nat, ids: seq<nat>, start: int, end: int, platforms: seq<string> :|
      Fetched(s, s', run, ids, start, end, platforms) {
      FreshFetch(s, s', run, ids, start, end, platforms);
    } else if run: nat, a: Answer :| CallAnswered(s, s', run, a) {
      FreshAnswer(s, s', run, a);
    } else if run: nat :| ChunkSaved(s, s', run) {
      assert RunOk(s, s.runs[run]);
      FreshSave(s, s', run);
    } else {
      var run: nat :| Ended(s, s', run);
      FreshSame(s, s');
    }
  }

  /** As long as no two runs hold one row, no copy is overtaken, and so counts are exact, SUCCESS is final
      and the bound holds. */
  lemma {:induction false} NoSharingIsFresh(b: seq<State>, k: nat)
    requires Behaviour(b) && k < |b| && forall j :: 0 <= j < k ==> NoSharing(b[j])
    ensures AllFresh(b[k]) && forall i: nat :: !EverStale(b, k, i)
  {
    if k > 0 {
      NoSharingIsFresh(b, k - 1);
      InvAlways(b, k - 1);
      assert StepAt(b, k);
      FreshNext(b[k - 1], b[k]);
    }
    forall i: nat ensures !EverStale(b, k, i) { StaleExactly(b, k, i); }
  }

  // ---------------------------------------------------------------- lost updates do happen

  ghost predicate EndsIn(b: seq<State>, s: State) { Behaviour(b) && b[|b| - 1] == s }

  ghost predicate Reachable(s: State) { exists b :: EndsIn(b, s) }

  lemma ReachNext(s: State, s': State)
    requires Reachable(s) && Next(s, s')
    ensures Reachable(s')
  {
    var b :| EndsIn(b, s);
    var b' := b + [s'];
    forall k: nat ensures StepAt(b', k) {
      if 0 < k < |b| { assert StepAt(b, k) && b'[k] == b[k] && b'[k - 1] == b[k - 1]; }
    }
    assert EndsIn(b', s');
  }

  function Fresh(): Request { Request("8R0001", "FR", 0, READY, 0, Null) }

  function Accept(): Answer { Answer(0, {"8R0001"}, map[]) }

  function Reject(): Answer { Answer(0, {}, map[]) }

  function TheCopy(copy: Request): Held { Held(0, copy, 0) }

  /** m runs have fetched the one row before any call was answered; the first j of them have saved a rejected
      copy, and run j has been answered if `answered`. */
  function Crowd(m: nat, j: nat, answered: bool): State {
    State([if j == 0 then Fresh() else Saved(Fresh(), Registered(Fresh(), Reject()))],
          map r: nat | r < m :: CrowdRun(r, j, answered),
          [j], [if answered then j + 1 else j], [0], if j >= 2 then {0} else {}, j)
  }

  function CrowdRun(r: nat, j: nat, answered: bool): Run {
    if r < j then Run([], [])
    else if r == j && answered then Run([TheCopy(Registered(Fresh(), Reject()))], [])
    else Run([], [[TheCopy(Fresh())]])
  }

  lemma OneChunk()
    ensures ChunksOf([TheCopy(Fresh())], ["FR"]) == [[TheCopy(Fresh())]]
    ensures Copies([Fresh()], [0], [0]) == [TheCopy(Fresh())]
  {
    var hs := [TheCopy(Fresh())];
    assert hs[..0] == [] && ["FR"][..0] == [];
    assert WithPlatform(hs, "FR") == hs;
    assert Chunk(hs, NUMBERS_PER_CALL) == [hs];
    assert ChunksOf(hs, []) == [];
  }

  lemma CrowdFetches(m: nat)
    requires Reachable(Crowd(m, 0, false))
    ensures Reachable(Crowd(m + 1, 0, false))
  {
    var s, s' := Crowd(m, 0, false), Crowd(m + 1, 0, false);
    OneChunk();
    assert s'.runs == s.runs[m := Run([], [[TheCopy(Fresh())]])];
    assert Found(s.rows, [0], 0, 0);
    assert Fetched(s, s', m, [0], 0, 0, ["FR"]);
    ReachNext(s, s');
  }

  lemma CrowdAnswers(m: nat, j: nat)
    requires j < m && Reachable(Crowd(m, j, false))
    ensures Reachable(Crowd(m, j, true))
  {
    var s, s' := Crowd(m, j, false), Crowd(m, j, true);
    var chunk := [TheCopy(Fresh())];
    assert IdsOf(chunk) == {0};
    assert Answered(chunk, Reject()) == [TheCopy(Registered(Fresh(), Reject()))];
    assert s.runs[j].todo[1..] == [];
    assert s'.runs == s.runs[j := Run(Answered(chunk, Reject()), [])];
    assert Bump(s.answers, {0}) == s'.answers;
    assert CallAnswered(s, s', j, Reject());
    ReachNext(s, s');
  }

  lemma CrowdSaves(m: nat, j: nat)
    requires j < m && Reachable(Crowd(m, j, true))
    ensures Reachable(Crowd(m, j + 1, false))
  {
    var s, s' := Crowd(m, j, true), Crowd(m, j + 1, false);
    var chunk := [TheCopy(Registered(Fresh(), Reject()))];
    assert s.runs[j].saving == chunk && IdsOf(chunk) == {0};
    assert chunk[..0] == [] && SaveAll(s.rows, chunk) == s'.rows;
    assert s'.runs == s.runs[j := Run([], [])];
    assert Bump(s.saves, {0}) == s'.saves;
    assert Overtaken(s.saves, chunk) == if j == 0 then {} else {0};
    assert ChunkSaved(s, s', j);
    ReachNext(s, s');
  }

  lemma OneRow()
    ensures Reachable(Crowd(0, 0, false))
  {
    var s := Crowd(0, 0, false);
    assert s == State([Fresh()], map[], [0], [0], [0], {}, 0);
    assert Inserted(Empty(), s, Fresh());
    assert EndsIn([Empty()], Empty());
    ReachNext(Empty(), s);
  }

  lemma {:induction false} CrowdFetched(m: nat)
    ensures Reachable(Crowd(m, 0, false))
  {
    if m == 0 {
      OneRow();
    } else {
      CrowdFetched(m - 1);
      CrowdFetches(m - 1);
    }
  }

  lemma {:induction false} CrowdReachable(m: nat, j: nat)
    requires j <= m
    ensures Reachable(Crowd(m, j, false))
    decreases j
  {
    if j == 0 {
      CrowdFetched(m);
    } else {
      CrowdReachable(m, j - 1);
      CrowdAnswers(m, j - 1);
      CrowdSaves(m, j - 1);
    }
  }

  /** Ten tries are no bound when runs overlap: for every m a row can have been registered m times and be
      counted once. */
  lemma TriesUnbounded(m: nat)
    requires m > 0
    ensures exists s :: Reachable(s) && |s.rows| == |s.saves| == 1 && s.saves[0] == m && s.rows[0].registerCount == 1
  {
    CrowdReachable(m, m);
    var s := Crowd(m, m, false);
    assert Reachable(s) && s.saves[0] == m;
  }

  /** Runs 0 and 1 have fetched the row; 0 was accepted and 1 rejected, and neither has saved. */
  function BothAnswered(): State {
    State([Fresh()],
          map[0 := Run([TheCopy(Registered(Fresh(), Accept()))], []),
              1 := Run([TheCopy(Registered(Fresh(), Reject()))], [])],
          [0], [2], [0], {}, 0)
  }

  lemma OneAnswer(s: State, s': State, run: nat, a: Answer)
    requires run in s.runs && s.runs[run] == Run([], [[TheCopy(Fresh())]]) && |s.answers| == 1 && a.code == 0
    requires s' == s.(runs := s.runs[run := Run([TheCopy(Registered(Fresh(), a))], [])], answers := [s.answers[0] + 1])
    ensures Next(s, s')
  {
    var chunk := [TheCopy(Fresh())];
    assert IdsOf(chunk) == {0} && [chunk][1..] == [];
    assert Answered(chunk, a) == [TheCopy(Registered(Fresh(), a))] && Bump(s.answers, {0}) == s'.answers;
    assert CallAnswered(s, s', run, a);
  }

  /** Two runs have fetched the row. */
  function TwoWaiting(): State {
    var waiting := Run([], [[TheCopy(Fresh())]]);
    State([Fresh()], map[0 := waiting, 1 := waiting], [0], [0], [0], {}, 0)
  }

  lemma TwoWaitingReachable()
    ensures Reachable(TwoWaiting())
  {
    CrowdFetched(2);
    assert Crowd(2, 0, false).runs == TwoWaiting().runs;
    assert Crowd(2, 0, false) == TwoWaiting();
  }

  lemma BothAnsweredReachable()
    ensures Reachable(BothAnswered())
  {
    var s0 := TwoWaiting();
    var s1 := s0.(runs := s0.runs[0 := Run([TheCopy(Registered(Fresh(), Accept()))], [])], answers := [1]);
    TwoWaitingReachable();
    OneAnswer(s0, s1, 0, Accept());
    ReachNext(s0, s1);
    assert BothAnswered().runs == s1.runs[1 := Run([TheCopy(Registered(Fresh(), Reject()))], [])];
    OneAnswer(s1, BothAnswered(), 1, Reject());
    ReachNext(s1, BothAnswered());
  }

  /** Then run 0 has saved SUCCESS with count 1. */
  function FirstSaved(): State {
    BothAnswered().(rows := [Fresh().(registerStatus := SUCCESS, registerCount := 1)],
                    runs := BothAnswered().runs[0 := Run([], [])], saves := [1], completed := 1)
  }

  /** And run 1 has saved FAILED with count 1 over it. */
  function BothSaved(): State {
    FirstSaved().(rows := [Fresh().(registerStatus := FAILED, registerCount := 1)],
                  runs := FirstSaved().runs[1 := Run([], [])], saves := [2], stale := {0}, completed := 2)
  }

  lemma FirstSavedReachable()
    ensures Reachable(FirstSaved())
  {
    var s0, won := BothAnswered(), [TheCopy(Registered(Fresh(), Accept()))];
    BothAnsweredReachable();
    assert IdsOf(won) == {0} && won[..0] == [] && SaveAll(s0.rows, won) == FirstSaved().rows;
    assert Bump([0], {0}) == [1] && Overtaken([0], won) == {};
    assert ChunkSaved(s0, FirstSaved(), 0);
    ReachNext(s0, FirstSaved());
  }

  lemma OverSaved()
    ensures Next(FirstSaved(), BothSaved())
  {
    var s1, failed := FirstSaved(), [TheCopy(Registered(Fresh(), Reject()))];
    assert s1.runs[1] == Run(failed, []);
    assert IdsOf(failed) == {0} && failed[..0] == [] && SaveAll(s1.rows, failed) == BothSaved().rows;
    assert Bump([1], {0}) == [2] && Overtaken([1], failed) == {0};
    assert ChunkSaved(s1, BothSaved(), 1);
  }

  /** So a success is undone, two registrations are counted as one, and the tries left rise from 0 to 9. */
  lemma SuccessUndone()
    ensures exists s, s' :: Reachable(s) && Reachable(s') && Next(s, s')
              && s.rows == [Fresh().(registerStatus := SUCCESS, registerCount := 1)]
              && s'.rows == [Fresh().(registerStatus := FAILED, registerCount := 1)] && s'.saves == s'.answers == [2]
              && Work(s.rows) == 0 && Work(s'.rows) == 9
  {
    var s1, s2 := FirstSaved(), BothSaved();
    FirstSavedReachable();
    OverSaved();
    ReachNext(s1, s2);
    assert s1.rows[..0] == [] && s2.rows[..0] == [];
  }

  /** A row that m runs, one after the other, registered before they died. */
  function Dead(m: nat): State { State([Fresh()], map[], [0], [m], [m], {}, 0) }

  /** A further run has fetched the row. */
  function Doomed(m: nat): State { Dead(m).(runs := map[0 := Run([], [[TheCopy(Fresh())]])]) }

  /** Its call is answered. */
  function DoomedAnswered(m: nat): State {
    Doomed(m).(runs := Doomed(m).runs[0 := Run([TheCopy(Registered(Fresh(), Reject()))], [])], answers := [m + 1])
  }

  lemma Fetches(m: nat)
    ensures Next(Dead(m), Doomed(m))
  {
    OneChunk();
    assert Doomed(m).runs == Dead(m).runs[0 := Run([], [[TheCopy(Fresh())]])] && Found(Dead(m).rows, [0], 0, 0);
    assert Fetched(Dead(m), Doomed(m), 0, [0], 0, 0, ["FR"]);
  }

  lemma Dies(m: nat)
    ensures Next(DoomedAnswered(m), Dead(m + 1))
  {
    var s, saving := DoomedAnswered(m), [TheCopy(Registered(Fresh(), Reject()))];
    assert s.runs[0] == Run(saving, []) && s.runs - {0} == map[];
    assert IdsOf(saving) == {0} && Bump([m], {0}) == [m + 1];
    assert Ended(s, Dead(m + 1), 0);
  }

  lemma OneMoreDies(m: nat)
    requires Reachable(Dead(m))
    ensures Reachable(Dead(m + 1))
  {
    Fetches(m);
    ReachNext(Dead(m), Doomed(m));
    OneAnswer(Doomed(m), DoomedAnswered(m), 0, Reject());
    ReachNext(Doomed(m), DoomedAnswered(m));
    Dies(m);
    ReachNext(DoomedAnswered(m), Dead(m + 1));
  }

  /** Nor are they when runs die between an answered call and its save: for every m a row can have been
      registered m times, with never two runs at once, and count 0. */
  lemma {:induction false} CallsUnbounded(m: nat)
    ensures Reachable(Dead(m)) && Dead(m).answers[0] == m && Dead(m).stale == {} && Dead(m).rows[0].registerCount == 0
  {
    if m == 0 {
      OneRow();
      assert Crowd(0, 0, false) == Dead(0);
    } else {
      CallsUnbounded(m - 1);
      OneMoreDies(m - 1);
    }
  }

  // ---------------------------------------------------------------- the job

  /** A row that is to be registered: READY or FAILED, with tries left, collected in the time span, of an enabled
      platform. */
  predicate ToRegister(r: Request, startDate: int, endDate: int, platforms: seq<string>) {
    && (r.registerStatus == READY || r.registerStatus == FAILED) && r.registerCount < 10
    && startDate <= r.createdAt && r.createdAt <= endDate && r.platform in platforms
  }

  predicate IsFound(rows: seq<Request>, h: Held, startDate: int, endDate: int, platforms: seq<string>) {
    h.id < |rows| && h.copy == rows[h.id] && ToRegister(h.copy, startDate, endDate, platforms)
  }

  lemma FetchHolds(rows: seq<Request>, saves: seq<nat>, ids: seq<nat>, startDate: int, endDate: int,
                   platforms: seq<string>)
    requires |saves| == |rows| && Found(rows, ids, startDate, endDate) && Distinct(platforms)
    ensures var cs := ChunksOf(Copies(rows, saves, ids), platforms);
            && (forall chunk :: chunk in cs ==> 1 <= |chunk| <= 40)
            && (forall h :: h in Flatten(cs) ==> IsFound(rows, h, startDate, endDate, platforms))
            && (|ids| < 10_000 ==> forall i: nat :: i < |rows| && ToRegister(rows[i], startDate, endDate, platforms) ==>
                  Held(i, rows[i], saves[i]) in Flatten(cs))
  {
    var hs := Copies(rows, saves, ids);
    ChunksOfPartition(hs, platforms);
    forall i: nat | i < |rows| && ToRegister(rows[i], startDate, endDate, platforms) && |ids| < 10_000
      ensures Held(i, rows[i], saves[i]) in hs
    {
      assert Eligible(rows[i], startDate, endDate);
      var k :| 0 <= k < |ids| && ids[k] == i;
      assert hs[k] == Held(i, rows[i], saves[i]);
    }
  }

  /** What an answer with code 0 makes of a copy in memory: counted once more; SUCCESS if its number was
      accepted, and otherwise FAILED with the reason of its rejection, if there is one. */
  predicate GotAnswer(h: Held, h': Held, a: Answer) {
    var r, r' := h.copy, h'.copy;
    && h'.id == h.id && h'.seen == h.seen
    && r'.trackingNumber == r.trackingNumber && r'.platform == r.platform && r'.createdAt == r.createdAt
    && r'.registerCount == r.registerCount + 1
    && (r.trackingNumber in a.accepted ==>
          r'.registerStatus == SUCCESS && r'.registerFailedReason == r.registerFailedReason)
    && (r.trackingNumber !in a.accepted ==>
          && r'.registerStatus == FAILED
          && (r.trackingNumber in a.rejected ==> r'.registerFailedReason == Text(a.rejected[r.trackingNumber]))
          && (r.trackingNumber !in a.rejected ==> r'.registerFailedReason == Undefined))
  }

  /** A saved row is the copy, but an undefined reason is not written. */
  predicate Written(row: Request, row': Request, copy: Request) {
    && row'.trackingNumber == copy.trackingNumber && row'.platform == copy.platform && row'.createdAt == copy.createdAt
    && row'.registerStatus == copy.registerStatus && row'.registerCount == copy.registerCount
    && (copy.registerFailedReason != Undefined ==> row'.registerFailedReason == copy.registerFailedReason)
    && (copy.registerFailedReason == Undefined ==> row'.registerFailedReason == row.registerFailedReason)
  }

  lemma ChunkWritten(s: State, s': State, run: nat)
    requires Inv(s) && ChunkSaved(s, s', run)
    ensures |s'.rows| == |s.rows| && forall h :: h in s.runs[run].saving ==> h.id < |s.rows|
    ensures forall h :: h in s.runs[run].saving ==> Written(s.rows[h.id], s'.rows[h.id], h.copy)
    ensures forall i :: 0 <= i < |s.rows| && (forall h :: h in s.runs[run].saving ==> h.id != i) ==>
              s'.rows[i] == s.rows[i]
  {
    var chunk := s.runs[run].saving;
    SaveAllLength(s.rows, chunk);
    DistinctPrefix(chunk, Flatten(s.runs[run].todo));
    assert RunOk(s, s.runs[run]);
    forall h | h in chunk ensures h.id < |s.rows| && Written(s.rows[h.id], s'.rows[h.id], h.copy) {
      assert SavingOk(s, h);
      SaveAllMeans(s.rows, chunk, h.id);
    }
    forall i | 0 <= i < |s.rows| && (forall h :: h in chunk ==> h.id != i) ensures s'.rows[i] == s.rows[i] {
      SaveAllMeans(s.rows, chunk, i);
    }
  }

  /** The table and the runs in flight. Each method is what happens between two awaits. */
  class Track17Requests {
    var rows: seq<Request>
    var runs: map<nat, Run>
    /** Per row, how often it was saved. */
    var saves: seq<nat>
    ghost var answers: seq<nat>
    ghost var lost: seq<nat>
    ghost var stale: set<nat>
    ghost var completed: nat

    ghost function Now(): State
      reads this
    {
      State(rows, runs, saves, answers, lost, stale, completed)
    }

    ghost predicate Valid()
      reads this
    {
      Inv(Now())
    }

    constructor ()
      ensures Valid() && Now() == Empty()
    {
      rows, runs, saves, answers, lost, stale, completed := [], map[], [], [], [], {}, 0;
    }

    /** The collecting job saves a new request. */
    method Insert(trackingNumber: string, platform: string, createdAt: int)
      requires Valid()
      modifies this
      ensures Valid() && Inserted(old(Now()), Now(), Request(trackingNumber, platform, createdAt, READY, 0, Null))
      ensures rows == old(rows) + [Request(trackingNumber, platform, createdAt, READY, 0, Null)] && runs == old(runs)
    {
      var entity := Request(trackingNumber, platform, createdAt, READY, 0, Null);
      rows, saves := rows + [entity], saves + [0];
      answers, lost := answers + [0], lost + [0];
      InsertedKeeps(old(Now()), Now(), entity);
    }

    /** `handle`, past its queries: `ids` is what `find` returned. */
    method Fetch(run: nat, ids: seq<nat>, startDate: int, endDate: int, platforms: seq<string>)
      requires Valid() && run !in runs && Found(rows, ids, startDate, endDate) && Distinct(platforms)
      modifies this
      ensures Valid() && Fetched(old(Now()), Now(), run, ids, startDate, endDate, platforms)
      ensures rows == old(rows) && runs.Keys == old(runs.Keys) + {run} && runs[run].saving == []
      ensures forall chunk :: chunk in runs[run].todo ==> 1 <= |chunk| <= 40
      ensures forall h :: h in Flatten(runs[run].todo) ==> IsFound(rows, h, startDate, endDate, platforms)
      ensures |ids| < 10_000 ==> forall i: nat :: i < |rows| && ToRegister(rows[i], startDate, endDate, platforms) ==>
                Held(i, rows[i], saves[i]) in Flatten(runs[run].todo)
    {
      var track17Requests := Copies(rows, saves, ids);
      var todo, k := [], 0;
      while k < |platforms|
        invariant 0 <= k <= |platforms| && todo == ChunksOf(track17Requests, platforms[..k])
      {
        var requests := WithPlatform(track17Requests, platforms[k]);
        todo := todo + Chunk(requests, NUMBERS_PER_CALL);
        assert platforms[..k + 1][..k] == platforms[..k];
        k := k + 1;
      }
      assert platforms[..k] == platforms;
      runs := runs[run := Run([], todo)];
      FetchedKeeps(old(Now()), Now(), run, ids, startDate, endDate, platforms);
      FetchHolds(rows, saves, ids, startDate, endDate, platforms);
    }

    /** `registerTrackingNumber`, past the call: the loop over the chunk in memory, or the exception. */
    method Answer(run: nat, a: Answer)
      requires Valid() && Waiting(Now(), run)
      modifies this
      ensures Valid() && CallAnswered(old(Now()), Now(), run, a) && rows == old(rows)
      ensures a.code != 0 ==> runs == old(runs) - {run} && answers == old(answers)
      ensures a.code == 0 ==>
                && runs == old(runs)[run := Run(runs[run].saving, old(runs[run].todo)[1..])]
                && |runs[run].saving| == |old(runs[run].todo)[0]|
                && forall k :: 0 <= k < |runs[run].saving| ==>
                     GotAnswer(old(runs[run].todo)[0][k], runs[run].saving[k], a)
    {
      var chunkRequests, rest := runs[run].todo[0], runs[run].todo[1..];
      if a.code != 0 {
        runs := runs - {run};
      } else {
        var saving, k := [], 0;
        while k < |chunkRequests|
          invariant 0 <= k <= |chunkRequests| && saving == Answered(chunkRequests, a)[..k]
        {
          var f := chunkRequests[k].copy;
          f := f.(registerCount := f.registerCount + 1);
          if f.trackingNumber in a.accepted {
            f := f.(registerStatus := SUCCESS);
          } else {
            f := f.(registerStatus := FAILED,
                    registerFailedReason := if f.trackingNumber in a.rejected then Text(a.rejected[f.trackingNumber])
                    else Undefined);
          }
          saving := saving + [chunkRequests[k].(copy := f)];
          k := k + 1;
        }
        assert saving == Answered(chunkRequests, a);
        answers := Bump(answers, IdsOf(chunkRequests));
        runs := runs[run := Run(saving, rest)];
      }
      AnswerKeeps(old(Now()), Now(), run, a);
    }

    /** The save of the chunk, in one transaction. */
    method Save(run: nat)
      requires Valid() && Saving(Now(), run)
      modifies this
      ensures Valid() && ChunkSaved(old(Now()), Now(), run)
      ensures |rows| == |old(rows)| && forall h :: h in old(runs[run].saving) ==> h.id < |rows|
      ensures forall h :: h in old(runs[run].saving) ==> Written(old(rows)[h.id], rows[h.id], h.copy)
      ensures forall i :: 0 <= i < |rows| && (forall h :: h in old(runs[run].saving) ==> h.id != i) ==>
                rows[i] == old(rows)[i]
    {
      var chunkRequests := runs[run].saving;
      var k := 0;
      assert chunkRequests[..0] == [];
      while k < |chunkRequests|
        invariant 0 <= k <= |chunkRequests| && rows == SaveAll(old(rows), chunkRequests[..k])
        invariant runs == old(runs) && saves == old(saves) && answers == old(answers) && lost == old(lost)
        invariant stale == old(stale) && completed == old(completed)
      {
        var h := chunkRequests[k];
        assert chunkRequests[..k + 1][..k] == chunkRequests[..k];
        if h.id < |rows| {
          rows := rows[h.id := Saved(rows[h.id], h.copy)];
        }
        k := k + 1;
      }
      assert chunkRequests[..k] == chunkRequests;
      stale, completed := stale + Overtaken(saves, chunkRequests), completed + 1;
      saves := Bump(saves, IdsOf(chunkRequests));
      runs := runs[run := Run([], runs[run].todo)];
      SaveKeeps(old(Now()), Now(), run);
      ChunkWritten(old(Now()), Now(), run);
    }

    /** The run is done, or something in it throws. */
    method End(run: nat)
      requires Valid() && run in runs
      modifies this
      ensures Valid() && Ended(old(Now()), Now(), run) && rows == old(rows) && runs == old(runs) - {run}
    {
      lost := Bump(lost, IdsOf(runs[run].saving));
      runs := runs - {run};
      EndedKeeps(old(Now()), Now(), run);
    }
  }
}
