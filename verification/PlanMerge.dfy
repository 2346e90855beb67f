/** The crawler plan merge: the READY plans of a transporter are regrouped by platform onto new
    files of at most 1000 targets, and the old plans are closed.

    Every awaited write is recorded in `history`, so a crash after any of them leaves the tables as
    some element of `history`. */
module PlanMerge {
  import opened Chunks
  import opened Sequences

  const DAY_MS := 86_400_000

  /** A target file in S3; `stamp` is the upload time that ends its name. */
  datatype Path = Path(platform: string, stamp: nat)

  datatype Status = READY | RUNNING | DONE

  datatype Plan = Plan(transporter: string, official: bool, platform: string, filePath: Path, schedule: int,
                       status: Status)

  /** `official` may be null on targets made by hand. */
  datatype Official = Null | Is(value: bool)
  datatype Target = Target(trackingNumber: string, filePath: Path, active: bool, official: Official)

  type Plans = map<nat, Plan>
  type Targets = map<nat, Target>
  datatype Snapshot = Snapshot(plans: Plans, targets: Targets)

  /** `moment(schedule).format('HH:mm:ss')`, as the second of the day. */
  function SecondOfDay(schedule: int): int { (schedule / 1000) % 86_400 }

  /** Two schedules agree in it exactly when they agree in hour, minute and second. */
  lemma SameTimeOfDay(a: int, b: int)
    ensures 0 <= SecondOfDay(a) < 86_400
    ensures SecondOfDay(a) == SecondOfDay(b) <==>
              && (a / 3_600_000) % 24 == (b / 3_600_000) % 24 && (a / 60_000) % 60 == (b / 60_000) % 60
              && (a / 1000) % 60 == (b / 1000) % 60
  {
    TimeOfDay(a);
    TimeOfDay(b);
  }

  lemma TimeOfDay(a: int)
    ensures SecondOfDay(a) == (a / 3_600_000) % 24 * 3600 + (a / 60_000) % 60 * 60 + (a / 1000) % 60
  {
    var s := a / 1000;
    assert a / 60_000 == s / 60 && a / 3_600_000 == s / 60 / 60;
    assert s == 60 * (s / 60) + s % 60 && s / 60 == 60 * (s / 60 / 60) + s / 60 % 60;
    var h := s / 60 / 60;
    assert h == 24 * (h / 24) + h % 24;
  }

  /** `moment(HMS, 'HH:mm:ss')`: that second of today. */
  function Today(today: int, second: int): int { today * DAY_MS + second * 1000 }

  lemma TodayKeepsSecond(today: int, second: int)
    requires 0 <= second < 86_400
    ensures SecondOfDay(Today(today, second)) == second
    ensures Today(today, second) / DAY_MS == today && Today(today, second) % 1000 == 0
  {
    assert Today(today, second) / 1000 == today * 86_400 + second;
  }

  predicate Selected(p: Plan, transporter: string, official: bool) {
    p.transporter == transporter && p.official == official && p.status == READY
  }

  ghost predicate Covered(plans: Plans, targets: Targets, id: nat)
    requires id in targets
  {
    exists p :: At(plans, p, targets[id].filePath) && plans[p].status == READY
  }

  ghost predicate At(plans: Plans, p: nat, path: Path) { p in plans && plans[p].filePath == path }

  ghost predicate AtSecond(plans: Plans, p: nat, path: Path, second: int) {
    At(plans, p, path) && SecondOfDay(plans[p].schedule) == second
  }

  /** The plans of a path are READY, with exactly one for each of the given seconds of the day. */
  ghost predicate Served(plans: Plans, path: Path, seconds: set<int>) {
    && (forall p :: At(plans, p, path) ==> plans[p].status == READY && SecondOfDay(plans[p].schedule) in seconds)
    && (forall s :: s in seconds ==> exists p :: AtSecond(plans, p, path, s))
    && (forall p, q, s :: AtSecond(plans, p, path, s) && AtSecond(plans, q, path, s) ==> p == q)
  }

  function TargetsAt(targets: Targets, path: Path): set<nat> { set id | id in targets && targets[id].filePath == path }

  function Group(plans: Plans, selected: set<nat>, platform: string): set<nat> {
    set p | p in selected && p in plans && plans[p].platform == platform
  }

  function Seconds(plans: Plans, group: set<nat>): set<int> {
    set p | p in group && p in plans :: SecondOfDay(plans[p].schedule)
  }

  function Paths(plans: Plans, group: set<nat>): set<Path> { set p | p in group && p in plans :: plans[p].filePath }

  function Repath(targets: Targets, ids: set<nat>, path: Path): Targets {
    map id | id in targets :: if id in ids then targets[id].(filePath := path) else targets[id]
  }

  predicate ToMove(t: Target, paths: set<Path>, official: bool) {
    t.filePath in paths && t.active && t.official == Is(official)
  }

  /** A plan as the merge writes it: for the job's transporter, today, on a path of its own platform. */
  predicate Fits(p: Plan, transporter: string, official: bool, today: int) {
    && p.transporter == transporter && p.official == official && p.platform == p.filePath.platform
    && p.schedule / DAY_MS == today && p.schedule % 1000 == 0
  }

  ghost predicate NewPlansFit(plans: Plans, plans0: Plans, transporter: string, official: bool, today: int) {
    forall p :: p in plans && p !in plans0 ==> Fits(plans[p], transporter, official, today)
  }

  // ---------------------------------------------------------------- what holds between the start and step 5

  /** Since the start, plans were only added, on paths stamped later; the targets in `moved` went to
      such a path, which is served as the plans of their platform were. */
  ghost predicate Progress(s: Snapshot, s0: Snapshot, start: nat, clock: nat, selected: set<nat>,
                           moved: map<nat, string>)
  {
    && (forall p :: p in s0.plans ==> p in s.plans && s.plans[p] == s0.plans[p])
    && (forall p :: p in s.plans && p !in s0.plans ==> start <= s.plans[p].filePath.stamp < clock)
    && (forall p :: p in s0.plans ==> s0.plans[p].filePath.stamp < start)
    && s.targets.Keys == s0.targets.Keys && moved.Keys <= s0.targets.Keys
    && (forall id :: id in s.targets ==> TargetOk(s, s0, start, clock, selected, moved, id))
  }

  ghost predicate TargetOk(s: Snapshot, s0: Snapshot, start: nat, clock: nat, selected: set<nat>,
                           moved: map<nat, string>, id: nat)
    requires id in s.targets && s.targets.Keys == s0.targets.Keys
  {
    var t, t0 := s.targets[id], s0.targets[id];
    && t0.filePath.stamp < start
    && if id !in moved then t == t0 else
       && t == t0.(filePath := t.filePath) && start <= t.filePath.stamp < clock && t.filePath.platform == moved[id]
       && t0.filePath in Paths(s0.plans, Group(s0.plans, selected, moved[id]))
       && Served(s.plans, t.filePath, Seconds(s0.plans, Group(s0.plans, selected, moved[id])))
  }

  /** Every target that started under a READY plan has one. */
  ghost predicate NoneOrphaned(s: Snapshot, s0: Snapshot) {
    s.targets.Keys == s0.targets.Keys
    && forall id :: id in s0.targets && Covered(s0.plans, s0.targets, id) ==> Covered(s.plans, s.targets, id)
  }

  lemma ProgressCovers(s: Snapshot, s0: Snapshot, start: nat, clock: nat, selected: set<nat>, moved: map<nat, string>)
    requires Progress(s, s0, start, clock, selected, moved)
    ensures NoneOrphaned(s, s0)
  {
    forall id | id in s0.targets && Covered(s0.plans, s0.targets, id) ensures Covered(s.plans, s.targets, id) {
      assert TargetOk(s, s0, start, clock, selected, moved, id);
      if id in moved {
        MovedCovered(s, s0, start, clock, selected, moved, id);
      } else {
        var p :| At(s0.plans, p, s0.targets[id].filePath) && s0.plans[p].status == READY;
        assert At(s.plans, p, s.targets[id].filePath);
      }
    }
  }

  lemma MovedCovered(s: Snapshot, s0: Snapshot, start: nat, clock: nat, selected: set<nat>, moved: map<nat, string>,
                     id: nat)
    requires id in s.targets && s.targets.Keys == s0.targets.Keys && id in moved
    requires TargetOk(s, s0, start, clock, selected, moved, id)
    ensures Covered(s.plans, s.targets, id)
  {
    var group := Group(s0.plans, selected, moved[id]);
    var g :| g in group;
    var second := SecondOfDay(s0.plans[g].schedule);
    assert second in Seconds(s0.plans, group);
    var p :| AtSecond(s.plans, p, s.targets[id].filePath, second);
  }

  // ---------------------------------------------------------------- new plans

  function NewPlan(path: Path, second: int, today: int, transporter: string, official: bool): Plan {
    Plan(transporter, official, path.platform, path, Today(today, second), READY)
  }

  function PlanFor(p: nat, first: nat, path: Path, seconds: seq<int>, today: int, transporter: string,
                   official: bool): Plan
    requires first <= p < first + |seconds|
  {
    NewPlan(path, seconds[p - first], today, transporter, official)
  }

  /** The rows saved for one new path: ids from `first` on, one per second. */
  function NewPlans(first: nat, path: Path, seconds: seq<int>, today: int, transporter: string, official: bool): Plans {
    map p: nat | first <= p < first + |seconds| :: PlanFor(p, first, path, seconds, today, transporter, official)
  }

  lemma NewPlanSecond(first: nat, path: Path, seconds: seq<int>, today: int, transporter: string, official: bool,
                      p: nat)
    requires first <= p < first + |seconds| && forall s :: s in seconds ==> 0 <= s < 86_400
    ensures SecondOfDay(NewPlans(first, path, seconds, today, transporter, official)[p].schedule) == seconds[p - first]
  {
    assert seconds[p - first] in seconds;
    TodayKeepsSecond(today, seconds[p - first]);
  }

  lemma NewPlansServe(plans: Plans, first: nat, path: Path, seconds: seq<int>, today: int, transporter: string,
                      official: bool)
    requires forall p :: p in plans ==> p < first && plans[p].filePath != path
    requires Distinct(seconds) && forall s :: s in seconds ==> 0 <= s < 86_400
    ensures Served(plans + NewPlans(first, path, seconds, today, transporter, official), path, Elems(seconds))
  {
    var added := NewPlans(first, path, seconds, today, transporter, official);
    var all := plans + added;
    forall p: nat | At(all, p, path)
      ensures p in added && all[p].status == READY && SecondOfDay(all[p].schedule) == seconds[p - first]
    {
      NewPlanSecond(first, path, seconds, today, transporter, official, p);
    }
    forall s | s in Elems(seconds) ensures exists p :: AtSecond(all, p, path, s) {
      var k :| 0 <= k < |seconds| && seconds[k] == s;
      assert first + k in added;
      NewPlanSecond(first, path, seconds, today, transporter, official, first + k);
      assert AtSecond(all, first + k, path, s);
    }
  }

  lemma NewPlansExtend(plans: Plans, first: nat, path: Path, seconds: seq<int>, today: int, transporter: string,
                       official: bool)
    requires forall p :: p in plans ==> p < first
    requires forall s :: s in seconds ==> 0 <= s < 86_400
    ensures var all := plans + NewPlans(first, path, seconds, today, transporter, official);
            && (forall p :: p in plans ==> p in all && all[p] == plans[p])
            && (forall p :: p in all && p !in plans ==> p < first + |seconds| && all[p].filePath == path)
            && NewPlansFit(all, plans, transporter, official, today)
  {
    var all := plans + NewPlans(first, path, seconds, today, transporter, official);
    forall p: nat | p in all && p !in plans ensures Fits(all[p], transporter, official, today) {
      NewPlanSecond(first, path, seconds, today, transporter, official, p);
    }
  }

  /** `s1` is `s` with plans added on a path. */
  ghost predicate PlansAdded(s: Snapshot, s1: Snapshot, path: Path) {
    && s1.targets == s.targets
    && (forall p :: p in s.plans ==> p in s1.plans && s1.plans[p] == s.plans[p])
    && (forall p :: p in s1.plans && p !in s.plans ==> s1.plans[p].filePath == path)
  }

  // ---------------------------------------------------------------- the job

  class CrawlerDb {
    var plans: Plans
    var targets: Targets
    var nextPlan: nat
    var clock: nat
    ghost var history: seq<Snapshot>

    /** Plan ids below `nextPlan` are used, and every file was uploaded before now. */
    ghost predicate Valid()
      reads this
    {
      && (forall p :: p in plans ==> p < nextPlan && plans[p].filePath.stamp < clock)
      && (forall id :: id in targets ==> targets[id].filePath.stamp < clock)
    }

    ghost function Now(): Snapshot
      reads this
    {
      Snapshot(plans, targets)
    }

    /** `uploadTrackingNumberToS3`: a new file, named by its platform and the current time. */
    method UploadTrackingNumbers(platform: string) returns (path: Path)
      requires Valid()
      modifies this`clock
      ensures Valid() && clock > old(clock) && path == Path(platform, old(clock))
      ensures forall p :: p in plans ==> plans[p].filePath != path
    {
      path := Path(platform, clock);
      clock := clock + 1;
    }

    /** `getRepository(CrawlerPlan).save(newPlans)`: one READY plan per second, on the new path. */
    method SavePlans(path: Path, seconds: seq<int>, today: int, transporter: string, official: bool)
      requires Valid() && path.stamp < clock
      requires Distinct(seconds)
      requires forall s :: s in seconds ==> 0 <= s < 86_400
      requires forall p :: p in plans ==> plans[p].filePath != path
      modifies this`plans, this`nextPlan, this`history
      ensures Valid()
      ensures PlansAdded(old(Now()), Now(), path) && NewPlansFit(plans, old(plans), transporter, official, today)
      ensures Served(plans, path, Elems(seconds))
      ensures history == old(history) + [Now()]
    {
      NewPlansExtend(plans, nextPlan, path, seconds, today, transporter, official);
      NewPlansServe(plans, nextPlan, path, seconds, today, transporter, official);
      plans, nextPlan := plans + NewPlans(nextPlan, path, seconds, today, transporter, official), nextPlan + |seconds|;
      history := history + [Now()];
    }

    /** `getRepository(CrawlerTarget).update({ id: In(ids) }, { filePath })`. */
    method MoveTargets(ids: set<nat>, path: Path)
      requires Valid() && path.stamp < clock
      modifies this`targets, this`history
      ensures Valid()
      ensures Now() == Snapshot(old(plans), Repath(old(targets), ids, path))
      ensures history == old(history) + [Now()]
    {
      targets := Repath(targets, ids, path);
      history := history + [Now()];
    }

    /** `getRepository(CrawlerPlan).update({ id: In(planIds) }, { status: 'DONE', … })`. */
    method ClosePlans(ids: set<nat>)
      requires Valid()
      modifies this`plans, this`history
      ensures Valid()
      ensures plans == map p | p in old(plans) :: if p in ids then old(plans)[p].(status := DONE) else old(plans)[p]
      ensures history == old(history) + [Now()]
    {
      plans := map p | p in plans :: if p in ids then plans[p].(status := DONE) else plans[p];
      history := history + [Now()];
    }
  }

  // ---------------------------------------------------------------- one chunk

  /** Every plan added since the start stands for 1 to 1000 targets. */
  ghost predicate PathsFull(s: Snapshot, s0: Snapshot) {
    forall p :: p in s.plans && p !in s0.plans ==> 1 <= |TargetsAt(s.targets, s.plans[p].filePath)| <= 1000
  }

  ghost predicate HistorySafe(before: seq<Snapshot>, after: seq<Snapshot>, s0: Snapshot) {
    before <= after && forall k :: |before| <= k < |after| ==> NoneOrphaned(after[k], s0)
  }

  lemma ServedFrame(plans: Plans, plans': Plans, path: Path, seconds: set<int>)
    requires Served(plans, path, seconds)
    requires forall p :: At(plans', p, path) <==> At(plans, p, path)
    requires forall p :: At(plans, p, path) && At(plans', p, path) ==> plans'[p] == plans[p]
    ensures Served(plans', path, seconds)
  {
    forall s | s in seconds ensures exists p :: AtSecond(plans', p, path, s) {
      var p :| AtSecond(plans, p, path, s);
      assert AtSecond(plans', p, path, s);
    }
    forall p, q, s | AtSecond(plans', p, path, s) && AtSecond(plans', q, path, s) ensures p == q {
      assert AtSecond(plans, p, path, s) && AtSecond(plans, q, path, s);
    }
  }

  lemma SaveProgress(s: Snapshot, s': Snapshot, s0: Snapshot, start: nat, clock: nat, clock': nat, selected: set<nat>,
                     moved: map<nat, string>, path: Path)
    requires Progress(s, s0, start, clock, selected, moved) && start <= clock == path.stamp < clock'
             && PlansAdded(s, s', path)
    ensures Progress(s', s0, start, clock', selected, moved)
  {
    forall id | id in s'.targets ensures TargetOk(s', s0, start, clock', selected, moved, id) {
      assert TargetOk(s, s0, start, clock, selected, moved, id);
      if id in moved {
        ServedFrame(s.plans, s'.plans, s.targets[id].filePath, Seconds(s0.plans, Group(s0.plans, selected, moved[id])));
      }
    }
  }

  lemma MoveProgress(s: Snapshot, s': Snapshot, s0: Snapshot, start: nat, clock: nat, selected: set<nat>,
                     moved: map<nat, string>, ids: seq<nat>, platform: string, path: Path)
    requires Progress(s, s0, start, clock, selected, moved) && start <= path.stamp < clock
    requires s' == Snapshot(s.plans, Repath(s.targets, Elems(ids), path))
    requires Movable(s.targets, ids, moved, Paths(s0.plans, Group(s0.plans, selected, platform)))
    requires path.platform == platform && Served(s.plans, path, Seconds(s0.plans, Group(s0.plans, selected, platform)))
    ensures Progress(s', s0, start, clock, selected, MovedTo(moved, ids, platform))
  {
    forall id | id in s'.targets ensures TargetOk(s', s0, start, clock, selected, MovedTo(moved, ids, platform), id) {
      assert TargetOk(s, s0, start, clock, selected, moved, id);
    }
  }

  lemma SetOfDistinct<T>(q: seq<T>)
    requires Distinct(q)
    ensures |Elems(q)| == |q|
  {
    if q != [] {
      SetOfDistinct(q[1..]);
      assert Elems(q) == {q[0]} + Elems(q[1..]);
    }
  }

  /** Moving one chunk fills its own new path and leaves every other new path as it was. */
  lemma MoveFills(s: Snapshot, s1: Snapshot, s2: Snapshot, s0: Snapshot, start: nat, ids: seq<nat>, path: Path)
    requires PathsFull(s, s0) && Distinct(ids) && 1 <= |ids| <= 1000 && start <= path.stamp
    requires s1.targets == s.targets && s2.plans == s1.plans && forall id :: id in ids ==> id in s.targets
    requires s2.targets == Repath(s.targets, Elems(ids), path)
    requires forall id :: id in s.targets ==> s.targets[id].filePath != path
    requires forall id :: id in ids ==> s.targets[id].filePath.stamp < start
    requires forall p :: p in s1.plans && p !in s0.plans ==> s1.plans[p].filePath.stamp >= start
    requires forall p :: p in s1.plans ==> s1.plans[p].filePath == path || (p in s.plans && s.plans[p] == s1.plans[p])
    ensures PathsFull(s2, s0)
  {
    SetOfDistinct(ids);
    assert TargetsAt(s2.targets, path) == Elems(ids);
    forall p | p in s2.plans && p !in s0.plans && s2.plans[p].filePath != path
      ensures TargetsAt(s2.targets, s2.plans[p].filePath) == TargetsAt(s.targets, s2.plans[p].filePath)
    {
    }
  }

  /** What a turn of the chunk loop starts from. */
  ghost predicate ChunkReady(s: Snapshot, s0: Snapshot, start: nat, clock: nat, selected: set<nat>,
                             moved: map<nat, string>, ids: seq<nat>, platform: string)
  {
    && Progress(s, s0, start, clock, selected, moved) && start <= clock && PathsFull(s, s0)
    && Distinct(ids) && 1 <= |ids| <= 1000
    && Movable(s.targets, ids, moved, Paths(s0.plans, Group(s0.plans, selected, platform)))
  }

  function MovedTo(moved: map<nat, string>, ids: seq<nat>, platform: string): map<nat, string> {
    moved + map id | id in Elems(ids) :: platform
  }

  /** One turn of the chunk loop: a new file, its plans, then its targets. */
  method MergeChunk(db: CrawlerDb, ids: seq<nat>, platform: string, seconds: seq<int>, today: int, transporter: string,
                    official: bool, ghost s0: Snapshot, ghost start: nat, ghost selected: set<nat>,
                    ghost moved: map<nat, string>)
    requires db.Valid() && ChunkReady(db.Now(), s0, start, db.clock, selected, moved, ids, platform)
    requires Distinct(seconds) && Elems(seconds) == Seconds(s0.plans, Group(s0.plans, selected, platform))
    requires NewPlansFit(db.plans, s0.plans, transporter, official, today)
    modifies db
    ensures db.Valid() && start <= db.clock
    ensures Progress(db.Now(), s0, start, db.clock, selected, MovedTo(moved, ids, platform)) && PathsFull(db.Now(), s0)
    ensures HistorySafe(old(db.history), db.history, s0)
            && NewPlansFit(db.plans, s0.plans, transporter, official, today)
  {
    SecondsBounded(s0.plans, Group(s0.plans, selected, platform), seconds);
    var newFilePath := db.UploadTrackingNumbers(platform);
    db.SavePlans(newFilePath, seconds, today, transporter, official);
    ghost var saved := db.Now();
    db.MoveTargets(Elems(ids), newFilePath);
    ChunkMerged(old(db.Now()), saved, db.Now(), s0, start, old(db.clock), db.clock, selected, moved, ids, platform,
                newFilePath);
  }

  lemma SecondsBounded(plans: Plans, group: set<nat>, seconds: seq<int>)
    requires Elems(seconds) == Seconds(plans, group)
    ensures forall s :: s in seconds ==> 0 <= s < 86_400
  {
    forall s | s in seconds ensures 0 <= s < 86_400 { assert s in Elems(seconds); }
  }

  /** The two states a chunk leaves behind: both orphan nobody, and the second has the chunk moved. */
  lemma ChunkMerged(s: Snapshot, s1: Snapshot, s2: Snapshot, s0: Snapshot, start: nat, clock: nat, clock': nat,
                    selected: set<nat>, moved: map<nat, string>, ids: seq<nat>, platform: string, path: Path)
    requires ChunkReady(s, s0, start, clock, selected, moved, ids, platform)
    requires path == Path(platform, clock) && clock < clock'
    requires PlansAdded(s, s1, path) && s2 == Snapshot(s1.plans, Repath(s.targets, Elems(ids), path))
    requires Served(s1.plans, path, Seconds(s0.plans, Group(s0.plans, selected, platform)))
    ensures NoneOrphaned(s1, s0) && NoneOrphaned(s2, s0) && PathsFull(s2, s0)
    ensures Progress(s2, s0, start, clock', selected, MovedTo(moved, ids, platform))
  {
    SaveProgress(s, s1, s0, start, clock, clock', selected, moved, path);
    ProgressCovers(s1, s0, start, clock', selected, moved);
    MoveProgress(s1, s2, s0, start, clock', selected, moved, ids, platform, path);
    ProgressCovers(s2, s0, start, clock', selected, MovedTo(moved, ids, platform));
    ChunkFills(s, s1, s2, s0, start, clock, selected, moved, ids, platform, path);
  }

  lemma ChunkFills(s: Snapshot, s1: Snapshot, s2: Snapshot, s0: Snapshot, start: nat, clock: nat, selected: set<nat>,
                   moved: map<nat, string>, ids: seq<nat>, platform: string, path: Path)
    requires ChunkReady(s, s0, start, clock, selected, moved, ids, platform) && clock == path.stamp
    requires PlansAdded(s, s1, path) && s2 == Snapshot(s1.plans, Repath(s.targets, Elems(ids), path))
    ensures PathsFull(s2, s0)
  {
    forall id | id in s.targets
      ensures s.targets[id].filePath.stamp < clock && (id in ids ==> s.targets[id].filePath.stamp < start)
    {
      assert TargetOk(s, s0, start, clock, selected, moved, id);
    }
    MoveFills(s, s1, s2, s0, start, ids, path);
  }

  ghost predicate Movable(targets: Targets, ids: seq<nat>, moved: map<nat, string>, paths: set<Path>) {
    forall id :: id in ids ==> id in targets && id !in moved && targets[id].filePath in paths
  }

  // ---------------------------------------------------------------- one platform

  method Enumerate<T(==)>(s: set<T>) returns (q: seq<T>)
    ensures Distinct(q) && Elems(q) == s
  {
    q := [];
    var rest := s;
    while rest != {}
      invariant Distinct(q) && Elems(q) !! rest && Elems(q) + rest == s
      decreases rest
    {
      var x :| x in rest;
      q, rest := q + [x], rest - {x};
    }
  }

  /** Exactly the movable targets of the groups done so far have moved. */
  ghost predicate MovedSoFar(s: Snapshot, s0: Snapshot, moved: map<nat, string>, paths: set<Path>, official: bool) {
    && s.targets.Keys == s0.targets.Keys
    && forall id :: id in s0.targets ==> (id in moved <==> ToMove(s0.targets[id], paths, official))
  }

  ghost predicate JobState(s: Snapshot, s0: Snapshot, start: nat, clock: nat, selected: set<nat>,
                           moved: map<nat, string>, paths: set<Path>, official: bool)
  {
    && Progress(s, s0, start, clock, selected, moved) && start <= clock && PathsFull(s, s0)
    && MovedSoFar(s, s0, moved, paths, official)
  }

  /** The rows still to be chunked: what the query found, minus the chunks done. */
  ghost predicate Remaining(s0: Snapshot, moved: map<nat, string>, rest: seq<nat>, paths: set<Path>, done: set<Path>,
                            official: bool)
  {
    && Distinct(rest)
    && (forall id :: id in rest ==> id in s0.targets && id !in moved && ToMove(s0.targets[id], paths, official))
    && (forall id :: id in s0.targets ==>
          (id in moved || id in rest <==> ToMove(s0.targets[id], done + paths, official)))
  }

  /** Between two chunks of a platform. */
  ghost predicate ChunksState(s: Snapshot, s0: Snapshot, start: nat, clock: nat, selected: set<nat>,
                              moved: map<nat, string>,
                              rest: seq<nat>, paths: set<Path>, done: set<Path>, official: bool)
  {
    && start <= clock && Progress(s, s0, start, clock, selected, moved) && PathsFull(s, s0)
    && Remaining(s0, moved, rest, paths, done, official)
  }

  /** The chunk loop of one platform. */
  method MergeChunks(db: CrawlerDb, targets: seq<nat>, platform: string, schedulesHMS: seq<int>, today: int,
                     transporter: string, official: bool, ghost s0: Snapshot, ghost start: nat,
                     ghost selected: set<nat>, ghost moved: map<nat, string>, ghost paths: set<Path>,
                     ghost done: set<Path>)
    returns (ghost moved': map<nat, string>)
    requires db.Valid() && ChunksState(db.Now(), s0, start, db.clock, selected, moved, targets, paths, done, official)
    requires paths == Paths(s0.plans, Group(s0.plans, selected, platform))
             && NewPlansFit(db.plans, s0.plans, transporter, official, today)
    requires Distinct(schedulesHMS) && Elems(schedulesHMS) == Seconds(s0.plans, Group(s0.plans, selected, platform))
    modifies db
    ensures db.Valid() && ChunksState(db.Now(), s0, start, db.clock, selected, moved', [], paths, done, official)
    ensures HistorySafe(old(db.history), db.history, s0)
            && NewPlansFit(db.plans, s0.plans, transporter, official, today)
  {
    moved' := moved;
    var rest := targets;
    while rest != []
      invariant db.Valid() && ChunksState(db.Now(), s0, start, db.clock, selected, moved', rest, paths, done, official)
      invariant HistorySafe(old(db.history), db.history, s0)
                && NewPlansFit(db.plans, s0.plans, transporter, official, today)
      decreases |rest|
    {
      var chunk := Chunk(rest, 1000)[0];
      NextChunk(db.Now(), s0, start, db.clock, selected, moved', rest, chunk, platform, paths, done, official);
      MergeChunk(db, chunk, platform, schedulesHMS, today, transporter, official, s0, start, selected, moved');
      moved' := MovedTo(moved', chunk, platform);
      rest := rest[|chunk|..];
    }
  }

  /** Steps 2 and 3 for one platform. */
  method MergePlatform(db: CrawlerDb, platform: string, today: int, transporter: string, official: bool,
                       ghost s0: Snapshot, ghost start: nat, ghost selected: set<nat>, group: set<nat>,
                       ghost moved: map<nat, string>, ghost done: set<Path>)
    returns (ghost moved': map<nat, string>)
    requires db.Valid() && JobState(db.Now(), s0, start, db.clock, selected, moved, done, official)
    requires group == Group(s0.plans, selected, platform)
             && NewPlansFit(db.plans, s0.plans, transporter, official, today)
    modifies db
    ensures db.Valid()
    ensures JobState(db.Now(), s0, start, db.clock, selected, moved', done + Paths(s0.plans, group), official)
    ensures HistorySafe(old(db.history), db.history, s0)
            && NewPlansFit(db.plans, s0.plans, transporter, official, today)
  {
    GroupKept(db.Now(), s0, start, db.clock, selected, moved, group);
    var filePaths := Paths(db.plans, group);
    var schedulesHMS := Enumerate(Seconds(db.plans, group));
    var rest := Enumerate<nat>(set id | id in db.targets && ToMove(db.targets[id], filePaths, official));
    FoundRemaining(db.Now(), s0, start, db.clock, selected, moved, rest, filePaths, done, official);
    moved' := MergeChunks(db, rest, platform, schedulesHMS, today, transporter, official, s0, start, selected, moved,
                          filePaths, done);
  }

  /** The plans of a group, read again, are those of the start. */
  lemma GroupKept(s: Snapshot, s0: Snapshot, start: nat, clock: nat, selected: set<nat>, moved: map<nat, string>,
                  group: set<nat>)
    requires Progress(s, s0, start, clock, selected, moved) && forall p :: p in group ==> p in s0.plans
    ensures Paths(s.plans, group) == Paths(s0.plans, group) && Seconds(s.plans, group) == Seconds(s0.plans, group)
  {
    forall p | p in group ensures p in s.plans && s.plans[p] == s0.plans[p] {}
  }

  /** The query on today's targets finds the movable targets of the start that have not moved. */
  lemma FoundRemaining(s: Snapshot, s0: Snapshot, start: nat, clock: nat, selected: set<nat>, moved: map<nat, string>,
                       rest: seq<nat>, paths: set<Path>, done: set<Path>, official: bool)
    requires JobState(s, s0, start, clock, selected, moved, done, official)
    requires forall path :: path in paths ==> path.stamp < start
    requires Distinct(rest) && Elems(rest) == set id | id in s.targets && ToMove(s.targets[id], paths, official)
    ensures Remaining(s0, moved, rest, paths, done, official)
  {
    forall id | id in s0.targets
      ensures id in rest <==> id !in moved && ToMove(s0.targets[id], paths, official)
    {
      assert TargetOk(s, s0, start, clock, selected, moved, id);
      assert id in rest <==> id in Elems(rest);
    }
    forall id | id in rest ensures id in s0.targets { assert id in Elems(rest); }
  }

  lemma DistinctSplit(q: seq<nat>, k: nat)
    requires Distinct(q) && k <= |q|
    ensures Distinct(q[..k]) && Distinct(q[k..])
    ensures forall id :: id in q <==> id in q[..k] || id in q[k..]
    ensures forall id :: id in q[k..] ==> id !in q[..k]
  {
    assert q == q[..k] + q[k..];
  }

  lemma RestAfter(s0: Snapshot, moved: map<nat, string>, rest: seq<nat>, k: nat, platform: string,
                  paths: set<Path>, done: set<Path>, official: bool)
    requires Remaining(s0, moved, rest, paths, done, official) && k <= |rest|
    ensures Remaining(s0, MovedTo(moved, rest[..k], platform), rest[k..], paths, done, official)
  {
    DistinctSplit(rest, k);
  }

  /** The first chunk of the rest is ready, and after it the remaining rows are the rest without it. */
  lemma NextChunk(s: Snapshot, s0: Snapshot, start: nat, clock: nat, selected: set<nat>, moved: map<nat, string>,
                  rest: seq<nat>, chunk: seq<nat>, platform: string, paths: set<Path>, done: set<Path>, official: bool)
    requires Progress(s, s0, start, clock, selected, moved) && start <= clock && PathsFull(s, s0)
    requires Remaining(s0, moved, rest, paths, done, official) && rest != [] && chunk == Chunk(rest, 1000)[0]
    requires paths == Paths(s0.plans, Group(s0.plans, selected, platform))
    ensures ChunkReady(s, s0, start, clock, selected, moved, chunk, platform)
    ensures |chunk| <= |rest| && Remaining(s0, MovedTo(moved, chunk, platform), rest[|chunk|..], paths, done, official)
  {
    assert chunk == rest[..|chunk|] && 1 <= |chunk| <= 1000;
    DistinctSplit(rest, |chunk|);
    RestAfter(s0, moved, rest, |chunk|, platform, paths, done, official);
    forall id | id in chunk ensures id in s.targets && id !in moved && s.targets[id].filePath in paths {
      assert TargetOk(s, s0, start, clock, selected, moved, id);
    }
  }

  // ---------------------------------------------------------------- the whole job

  function Platforms(plans: Plans, selected: set<nat>): set<string> {
    set p | p in selected && p in plans :: plans[p].platform
  }

  /** The state after the job: old selected plans are DONE, other old plans untouched, the movable
      targets moved to served new paths of 1 to 1000 targets, and nothing else changed. */
  ghost predicate Merged(s: Snapshot, s0: Snapshot, start: nat, selected: set<nat>, moved: map<nat, string>,
                         official: bool)
  {
    && (forall p :: p in s0.plans ==>
          p in s.plans && s.plans[p] == if p in selected then s0.plans[p].(status := DONE) else s0.plans[p])
    && (forall p :: p in s.plans && p !in s0.plans ==> start <= s.plans[p].filePath.stamp)
    && PathsFull(s, s0) && MovedSoFar(s, s0, moved, Paths(s0.plans, selected), official)
    && (forall id :: id in s0.targets ==> FinalTarget(s, s0, start, selected, moved, id))
  }

  ghost predicate FinalTarget(s: Snapshot, s0: Snapshot, start: nat, selected: set<nat>, moved: map<nat, string>,
                              id: nat)
    requires id in s0.targets
  {
    && id in s.targets && s0.targets[id].filePath.stamp < start
    && if id !in moved then s.targets[id] == s0.targets[id]
       else && s.targets[id] == s0.targets[id].(filePath := s.targets[id].filePath)
            && start <= s.targets[id].filePath.stamp && s.targets[id].filePath.platform == moved[id]
            && s0.targets[id].filePath in Paths(s0.plans, Group(s0.plans, selected, moved[id]))
            && Served(s.plans, s.targets[id].filePath, Seconds(s0.plans, Group(s0.plans, selected, moved[id])))
  }

  function PathsOf(plans: Plans, selected: set<nat>, platforms: set<string>): set<Path> {
    set p | p in selected && p in plans && plans[p].platform in platforms :: plans[p].filePath
  }

  lemma PathsOfAll(plans: Plans, selected: set<nat>)
    ensures PathsOf(plans, selected, Platforms(plans, selected)) == Paths(plans, selected)
  {
  }

  lemma PathsOfSplit(plans: Plans, selected: set<nat>, todo: set<string>, platform: string)
    requires platform in todo
    ensures PathsOf(plans, selected, todo) ==
            Paths(plans, Group(plans, selected, platform)) + PathsOf(plans, selected, todo - {platform})
  {
    var rest := PathsOf(plans, selected, todo - {platform});
    forall path | path in PathsOf(plans, selected, todo)
      ensures path in Paths(plans, Group(plans, selected, platform)) || path in rest
    {
      var p :| p in selected && p in plans && plans[p].platform in todo && plans[p].filePath == path;
      assert p in Group(plans, selected, platform) || plans[p].platform in todo - {platform};
    }
  }

  lemma StartState(s: Snapshot, start: nat, selected: set<nat>, official: bool)
    requires forall p :: p in s.plans ==> s.plans[p].filePath.stamp < start
    requires forall id :: id in s.targets ==> s.targets[id].filePath.stamp < start
    ensures JobState(s, s, start, start, selected, map[], {}, official)
  {
  }

  /** Steps 2 and 3: the loop over the platforms. */
  method MergePlatforms(db: CrawlerDb, plans: set<nat>, transporter: string, official: bool, today: int)
    returns (ghost moved: map<nat, string>)
    requires db.Valid() && plans <= db.plans.Keys
    modifies db
    ensures db.Valid() && HistorySafe(old(db.history), db.history, old(db.Now()))
    ensures JobState(db.Now(), old(db.Now()), old(db.clock), db.clock, plans, moved, Paths(old(db.plans), plans),
                     official)
    ensures NewPlansFit(db.plans, old(db.plans), transporter, official, today)
  {
    ghost var s0, start := db.Now(), db.clock;
    var platforms := Platforms(db.plans, plans);
    var groups := map platform | platform in platforms :: Group(db.plans, plans, platform);
    moved := map[];
    ghost var done: set<Path> := {};
    var todo := platforms;
    PathsOfAll(s0.plans, plans);
    StartState(s0, start, plans, official);
    while todo != {}
      invariant todo <= platforms && db.Valid() && HistorySafe(old(db.history), db.history, s0)
      invariant JobState(db.Now(), s0, start, db.clock, plans, moved, done, official)
      invariant done + PathsOf(s0.plans, plans, todo) == Paths(s0.plans, plans)
      invariant NewPlansFit(db.plans, s0.plans, transporter, official, today)
      decreases todo
    {
      var platform :| platform in todo;
      PathsOfSplit(s0.plans, plans, todo, platform);
      moved := MergePlatform(db, platform, today, transporter, official, s0, start, plans, groups[platform], moved,
                             done);
      done := done + Paths(s0.plans, groups[platform]);
      todo := todo - {platform};
    }
    assert done == Paths(s0.plans, plans);
  }

  /** Of the old plans exactly the READY ones of the transporter with the flag are DONE; the others are as
      they were. */
  ghost predicate PlansAfter(plans0: Plans, plans: Plans, transporter: string, official: bool) {
    forall p :: p in plans0 ==>
      && p in plans
      && plans[p] ==
         if plans0[p].transporter == transporter && plans0[p].official == official && plans0[p].status == READY
         then plans0[p].(status := DONE) else plans0[p]
  }

  /** A READY plan of the transporter with the flag and the platform has the path. */
  ghost predicate OnMergedPath(plans0: Plans, path: Path, platform: string, transporter: string, official: bool) {
    exists p ::
      && p in plans0 && plans0[p].filePath == path && plans0[p].platform == platform
      && plans0[p].transporter == transporter && plans0[p].official == official && plans0[p].status == READY
  }

  /** Exactly the active targets with the flag on the path of a merged plan have moved, to a path of that
      plan's platform; nothing else of any target has changed. */
  ghost predicate TargetsAfter(plans0: Plans, targets0: Targets, targets: Targets, transporter: string,
                               official: bool)
  {
    && targets.Keys == targets0.Keys
    && (forall id :: id in targets0 ==> targets[id] == targets0[id].(filePath := targets[id].filePath))
    && (forall id :: id in targets0 && targets[id].filePath != targets0[id].filePath ==>
          && targets0[id].active && targets0[id].official == Is(official)
          && OnMergedPath(plans0, targets0[id].filePath, targets[id].filePath.platform, transporter, official))
    && (forall id, platform ::
          && id in targets0 && targets0[id].active && targets0[id].official == Is(official)
          && OnMergedPath(plans0, targets0[id].filePath, platform, transporter, official) ==>
          targets[id].filePath != targets0[id].filePath)
  }

  /** At the time of day of the schedule a READY plan of the transporter with the flag and the platform ran. */
  ghost predicate MergedTime(plans0: Plans, platform: string, schedule: int, transporter: string, official: bool) {
    exists p ::
      && p in plans0 && plans0[p].platform == platform
      && plans0[p].transporter == transporter && plans0[p].official == official && plans0[p].status == READY
      && SecondOfDay(plans0[p].schedule) == SecondOfDay(schedule)
  }

  /** A new plan is READY, of the transporter, the flag and the platform of its path, for today at the time of a
      merged plan of that platform, the only one on its path at that time, and stands for 1 to 1000 targets. */
  ghost predicate NewPlanAfter(s0: Snapshot, s: Snapshot, transporter: string, official: bool, today: int, p: nat)
    requires p in s.plans
  {
    var n := s.plans[p];
    && n.status == READY && n.transporter == transporter && n.official == official
    && n.platform == n.filePath.platform && n.schedule / DAY_MS == today && n.schedule % 1000 == 0
    && MergedTime(s0.plans, n.platform, n.schedule, transporter, official)
    && (forall q :: AtSecond(s.plans, q, n.filePath, SecondOfDay(n.schedule)) ==> q == p)
    && 1 <= |TargetsAt(s.targets, n.filePath)| <= 1000
  }

  /** The time of a merged plan of the path's platform has a plan on the path. */
  ghost predicate TimeKept(s0: Snapshot, s: Snapshot, transporter: string, official: bool, path: Path, time: int) {
    MergedTime(s0.plans, path.platform, time, transporter, official) ==>
      exists p :: AtSecond(s.plans, p, path, SecondOfDay(time))
  }

  ghost predicate NewPlansAfter(s0: Snapshot, s: Snapshot, transporter: string, official: bool, today: int) {
    && (forall p :: p in s.plans && p !in s0.plans ==> NewPlanAfter(s0, s, transporter, official, today, p))
    && (forall id, time :: id in s.targets && id in s0.targets && s.targets[id].filePath != s0.targets[id].filePath ==>
          TimeKept(s0, s, transporter, official, s.targets[id].filePath, time))
  }

  lemma InGroup(plans0: Plans, selected: set<nat>, path: Path, platform: string, transporter: string, official: bool)
    requires selected == set p | p in plans0 && Selected(plans0[p], transporter, official)
    ensures path in Paths(plans0, Group(plans0, selected, platform)) <==>
            OnMergedPath(plans0, path, platform, transporter, official)
    ensures path in Paths(plans0, selected) <==>
            exists pf :: OnMergedPath(plans0, path, pf, transporter, official)
  {
    if path in Paths(plans0, selected) {
      var p :| p in selected && plans0[p].filePath == path;
      assert OnMergedPath(plans0, path, plans0[p].platform, transporter, official);
    }
    if pf :| OnMergedPath(plans0, path, pf, transporter, official) {
      var p :| p in plans0 && plans0[p].filePath == path && Selected(plans0[p], transporter, official);
      assert p in selected;
    }
    if OnMergedPath(plans0, path, platform, transporter, official) {
      var p :| p in plans0 && plans0[p].filePath == path && plans0[p].platform == platform
               && Selected(plans0[p], transporter, official);
      assert p in Group(plans0, selected, platform);
    }
  }

  lemma InSeconds(plans0: Plans, selected: set<nat>, platform: string, time: int, transporter: string, official: bool)
    requires selected == set p | p in plans0 && Selected(plans0[p], transporter, official)
    ensures SecondOfDay(time) in Seconds(plans0, Group(plans0, selected, platform)) <==>
            MergedTime(plans0, platform, time, transporter, official)
  {
    if MergedTime(plans0, platform, time, transporter, official) {
      var p :| p in plans0 && plans0[p].platform == platform && Selected(plans0[p], transporter, official)
               && SecondOfDay(plans0[p].schedule) == SecondOfDay(time);
      assert p in Group(plans0, selected, platform);
    }
  }

  lemma TargetsMerged(s: Snapshot, s0: Snapshot, start: nat, selected: set<nat>, moved: map<nat, string>,
                      transporter: string, official: bool)
    requires Merged(s, s0, start, selected, moved, official) && s.targets.Keys == s0.targets.Keys
    requires selected == set p | p in s0.plans && Selected(s0.plans[p], transporter, official)
    ensures TargetsAfter(s0.plans, s0.targets, s.targets, transporter, official)
  {
    forall id | id in s0.targets
      ensures FinalTarget(s, s0, start, selected, moved, id)
      ensures id in moved <==> s.targets[id].filePath != s0.targets[id].filePath
      ensures id in moved ==> OnMergedPath(s0.plans, s0.targets[id].filePath, moved[id], transporter, official)
    {
      assert FinalTarget(s, s0, start, selected, moved, id);
      if id in moved { InGroup(s0.plans, selected, s0.targets[id].filePath, moved[id], transporter, official); }
    }
    forall id, platform | id in s0.targets && s0.targets[id].active && s0.targets[id].official == Is(official)
                          && OnMergedPath(s0.plans, s0.targets[id].filePath, platform, transporter, official)
      ensures id in moved
    {
      InGroup(s0.plans, selected, s0.targets[id].filePath, platform, transporter, official);
    }
  }

  /** The path of a new plan is one that a target moved to. */
  lemma NewPathTaken(s: Snapshot, s0: Snapshot, start: nat, selected: set<nat>, moved: map<nat, string>,
                     official: bool, p: nat) returns (id: nat)
    requires Merged(s, s0, start, selected, moved, official) && s.targets.Keys == s0.targets.Keys
    requires p in s.plans && p !in s0.plans
    ensures id in moved && id in s0.targets && id in s.targets && s.targets[id].filePath == s.plans[p].filePath
  {
    var path := s.plans[p].filePath;
    assert TargetsAt(s.targets, path) != {};
    id :| id in TargetsAt(s.targets, path);
    assert FinalTarget(s, s0, start, selected, moved, id);
  }

  lemma NewPlanMerged(s: Snapshot, s0: Snapshot, start: nat, selected: set<nat>, moved: map<nat, string>,
                      transporter: string, official: bool, today: int, p: nat)
    requires Merged(s, s0, start, selected, moved, official) && s.targets.Keys == s0.targets.Keys
    requires selected == set q | q in s0.plans && Selected(s0.plans[q], transporter, official)
    requires p in s.plans && p !in s0.plans && Fits(s.plans[p], transporter, official, today)
    ensures NewPlanAfter(s0, s, transporter, official, today, p)
  {
    var id := NewPathTaken(s, s0, start, selected, moved, official, p);
    assert FinalTarget(s, s0, start, selected, moved, id) && At(s.plans, p, s.plans[p].filePath);
    assert AtSecond(s.plans, p, s.plans[p].filePath, SecondOfDay(s.plans[p].schedule));
    InSeconds(s0.plans, selected, moved[id], s.plans[p].schedule, transporter, official);
  }

  lemma NewPlansMerged(s: Snapshot, s0: Snapshot, start: nat, selected: set<nat>, moved: map<nat, string>,
                       transporter: string, official: bool, today: int)
    requires Merged(s, s0, start, selected, moved, official) && s.targets.Keys == s0.targets.Keys
    requires selected == set p | p in s0.plans && Selected(s0.plans[p], transporter, official)
    requires NewPlansFit(s.plans, s0.plans, transporter, official, today)
    ensures NewPlansAfter(s0, s, transporter, official, today)
  {
    forall p | p in s.plans && p !in s0.plans ensures NewPlanAfter(s0, s, transporter, official, today, p) {
      NewPlanMerged(s, s0, start, selected, moved, transporter, official, today, p);
    }
    forall id, time | id in s.targets && id in s0.targets && s.targets[id].filePath != s0.targets[id].filePath
      ensures TimeKept(s0, s, transporter, official, s.targets[id].filePath, time)
    {
      assert FinalTarget(s, s0, start, selected, moved, id);
      InSeconds(s0.plans, selected, moved[id], time, transporter, official);
    }
  }

  lemma CloseMerges(s: Snapshot, s': Snapshot, s0: Snapshot, start: nat, clock: nat, selected: set<nat>,
                    moved: map<nat, string>, official: bool)
    requires JobState(s, s0, start, clock, selected, moved, Paths(s0.plans, selected), official)
    requires selected <= s0.plans.Keys && s'.targets == s.targets
    requires s'.plans == map p | p in s.plans :: if p in selected then s.plans[p].(status := DONE) else s.plans[p]
    ensures Merged(s', s0, start, selected, moved, official)
  {
    forall id | id in s0.targets ensures FinalTarget(s', s0, start, selected, moved, id) {
      assert TargetOk(s, s0, start, clock, selected, moved, id);
      if id in moved {
        var path := s.targets[id].filePath;
        assert forall p :: At(s.plans, p, path) ==> p !in selected;
        ServedFrame(s.plans, s'.plans, path, Seconds(s0.plans, Group(s0.plans, selected, moved[id])));
      }
    }
  }

  /** The last write completes what the job promises. */
  lemma JobDone(s: Snapshot, s': Snapshot, s0: Snapshot, start: nat, clock: nat, selected: set<nat>,
                moved: map<nat, string>, transporter: string, official: bool, today: int)
    requires JobState(s, s0, start, clock, selected, moved, Paths(s0.plans, selected), official)
    requires selected == set p | p in s0.plans && Selected(s0.plans[p], transporter, official)
    requires NewPlansFit(s.plans, s0.plans, transporter, official, today) && s'.targets == s.targets
    requires s'.plans == map p | p in s.plans :: if p in selected then s.plans[p].(status := DONE) else s.plans[p]
    ensures Merged(s', s0, start, selected, moved, official)
    ensures PlansAfter(s0.plans, s'.plans, transporter, official)
    ensures TargetsAfter(s0.plans, s0.targets, s'.targets, transporter, official)
    ensures NewPlansAfter(s0, s', transporter, official, today)
  {
    CloseMerges(s, s', s0, start, clock, selected, moved, official);
    TargetsMerged(s', s0, start, selected, moved, transporter, official);
    assert NewPlansFit(s'.plans, s0.plans, transporter, official, today);
    NewPlansMerged(s', s0, start, selected, moved, transporter, official, today);
  }

  /** `handle`: at every point before the last write no target is orphaned, and `Merged` holds at the end. */
  method Handle(db: CrawlerDb, transporter: string, official: bool, today: int)
    returns (ghost selected: set<nat>, ghost moved: map<nat, string>)
    requires db.Valid()
    modifies db
    ensures db.Valid() && old(db.history) <= db.history
    ensures selected == set p | p in old(db.plans) && Selected(old(db.plans)[p], transporter, official)
    ensures forall k :: |old(db.history)| <= k < |db.history| - 1 ==> NoneOrphaned(db.history[k], old(db.Now()))
    ensures Merged(db.Now(), old(db.Now()), old(db.clock), selected, moved, official)
    ensures PlansAfter(old(db.plans), db.plans, transporter, official)
    ensures TargetsAfter(old(db.plans), old(db.targets), db.targets, transporter, official)
    ensures NewPlansAfter(old(db.Now()), db.Now(), transporter, official, today)
  {
    var plans := set p | p in db.plans && Selected(db.plans[p], transporter, official);
    selected := plans;
    moved := MergePlatforms(db, plans, transporter, official, today);
    ghost var merged, clock := db.Now(), db.clock;
    if plans != {} {
      db.ClosePlans(plans);
    }
    JobDone(merged, db.Now(), old(db.Now()), old(db.clock), clock, selected, moved, transporter, official, today);
  }

  /** After the job, a target that started under a READY plan has one exactly when it was moved or an
      untouched READY plan shares its path. So an active target of a merged plan is orphaned exactly
      when its own `official` flag differs from the job's and no other READY plan serves its path. */
  lemma CoveredExactly(s: Snapshot, s0: Snapshot, start: nat, selected: set<nat>, moved: map<nat, string>,
                       official: bool, id: nat)
    requires Merged(s, s0, start, selected, moved, official) && id in s0.targets
    ensures Covered(s.plans, s.targets, id) <==>
              || ToMove(s0.targets[id], Paths(s0.plans, selected), official)
              || exists p :: At(s0.plans, p, s0.targets[id].filePath) && s0.plans[p].status == READY && p !in selected
  {
    assert FinalTarget(s, s0, start, selected, moved, id);
    var path := s.targets[id].filePath;
    if id in moved {
      var group := Group(s0.plans, selected, moved[id]);
      var g :| g in group && s0.plans[g].filePath == s0.targets[id].filePath;
      assert SecondOfDay(s0.plans[g].schedule) in Seconds(s0.plans, group);
      var p :| AtSecond(s.plans, p, path, SecondOfDay(s0.plans[g].schedule));
      assert At(s.plans, p, path);
    } else {
      if p :| At(s.plans, p, path) && s.plans[p].status == READY {
        assert At(s0.plans, p, path);
      }
      if p :| At(s0.plans, p, path) && s0.plans[p].status == READY && p !in selected {
        assert At(s.plans, p, path);
      }
    }
  }

  /** One READY plan, and one active target on its path whose flag is null. */
  function HandMade(): Snapshot {
    var path := Path("FR", 0);
    Snapshot(map[0 := Plan("COLISSIMO", true, "FR", path, 0, READY)], map[0 := Target("8R0001", path, true, Null)])
  }

  /** Every merge of the official plans orphans that target. */
  lemma NullFlagOrphans(s: Snapshot, start: nat, moved: map<nat, string>)
    requires Merged(s, HandMade(), start, {0}, moved, true)
    ensures HandMade().targets[0].active && Covered(HandMade().plans, HandMade().targets, 0)
    ensures !Covered(s.plans, s.targets, 0)
  {
    CoveredExactly(s, HandMade(), start, {0}, moved, true, 0);
    assert At(HandMade().plans, 0, HandMade().targets[0].filePath);
  }

  /** The tables after the merge of the official plans: the plan is closed, and the target stays where it was. */
  function HandMadeMerged(): Snapshot {
    HandMade().(plans := map[0 := HandMade().plans[0].(status := DONE)])
  }

  /** That is indeed how the merge ends, and the target, still active, has no READY plan left. */
  lemma HandMadeOrphaned()
    ensures Merged(HandMadeMerged(), HandMade(), 1, {0}, map[], true)
    ensures HandMade().targets[0].active && Covered(HandMade().plans, HandMade().targets, 0)
    ensures HandMadeMerged().targets[0].active && !Covered(HandMadeMerged().plans, HandMadeMerged().targets, 0)
  {
    NullFlagOrphans(HandMadeMerged(), 1, map[]);
  }
}
