/** The parcel push job: pending requests are fetched, grouped by platform, chunked, sent to Kafka,
    logged and deleted, by one coroutine per platform.

    A coroutine's calls depend only on the rows and configurations read before it starts, so it is a
    fixed script of calls. The coroutines of any number of runs interleave; every call may fail, with
    or without having taken effect. */
module ParcelPush {
  import opened Options
  import opened Chunks

  /** What a request says, without its row id. */
  datatype Fields = Fields(platform: string, trackingNumber: string, transporter: string, status: string)
  datatype Request = Request(id: nat, fields: Fields)

  /** An enabled push configuration. */
  datatype Config = Config(platform: string, transporters: seq<string>, topic: string)

  /** One coroutine: a platform of a run. */
  datatype Cid = Cid(run: nat, platform: string)

  datatype Message = Message(cid: Cid, topic: string, body: seq<Request>)

  datatype Call =
    | Delete(ids: set<nat>)
    | Send(topic: string, body: seq<Request>)
    | InsertLog(rows: seq<LogRow>)
    | MarkSynced(trackingNumbers: set<string>)

  type Script = seq<Call>

  /** A log row; `of` is the request it was written for, which the row itself does not keep. */
  datatype LogRow = LogRow(of: nat, fields: Fields)

  datatype Db = Db(pending: map<nat, Request>, sent: seq<Message>, log: seq<LogRow>, synced: set<string>)

  // ---------------------------------------------------------------- what a coroutine will do

  function FindConfig(configs: seq<Config>, platform: string): Option<Config> {
    if configs == [] then None
    else if configs[0].platform == platform then Some(configs[0])
    else FindConfig(configs[1..], platform)
  }

  predicate ToDrop(c: Config, r: Request) {
    r.fields.status == "CREATED" || ("*" !in c.transporters && r.fields.transporter !in c.transporters)
  }

  function OfPlatform(rs: seq<Request>, platform: string): seq<Request> {
    if rs == [] then []
    else (if rs[0].fields.platform == platform then [rs[0]] else []) + OfPlatform(rs[1..], platform)
  }

  /** `_.partition`: the rows to delete, and the rows to push. */
  function Dropped(c: Config, rs: seq<Request>): seq<Request> {
    if rs == [] then [] else (if ToDrop(c, rs[0]) then [rs[0]] else []) + Dropped(c, rs[1..])
  }

  function Kept(c: Config, rs: seq<Request>): seq<Request> {
    if rs == [] then [] else (if ToDrop(c, rs[0]) then [] else [rs[0]]) + Kept(c, rs[1..])
  }

  function Ids(rs: seq<Request>): set<nat> { set r | r in rs :: r.id }

  function TrackingNumbers(rs: seq<Request>): set<string> { set r | r in rs :: r.fields.trackingNumber }

  function LogRowOf(r: Request): LogRow { LogRow(r.id, r.fields) }

  function LogRows(rs: seq<Request>): (rows: seq<LogRow>)
    ensures |rows| == |rs| && forall i :: 0 <= i < |rs| ==> rows[i].of == rs[i].id && rows[i].fields == rs[i].fields
  {
    if rs == [] then [] else [LogRowOf(rs[0])] + LogRows(rs[1..])
  }

  function ChunkScript(topic: string, chunk: seq<Request>): Script {
    [Send(topic, chunk), InsertLog(LogRows(chunk)), Delete(Ids(chunk)), MarkSynced(TrackingNumbers(chunk))]
  }

  function ChunksScript(topic: string, chunks: seq<seq<Request>>): Script {
    if chunks == [] then [] else ChunkScript(topic, chunks[0]) + ChunksScript(topic, chunks[1..])
  }

  function DropScript(rs: seq<Request>): Script { if rs == [] then [] else [Delete(Ids(rs))] }

  /** The calls of one coroutine, given the rows of its platform. */
  function PlatformScript(rs: seq<Request>, platform: string, configs: seq<Config>): Script {
    match FindConfig(configs, platform)
    case None => [Delete(Ids(rs))]
    case Some(c) => DropScript(Dropped(c, rs)) + ChunksScript(c.topic, Chunk(Kept(c, rs), 1000))
  }

  function Apply(db: Db, cid: Cid, call: Call): Db {
    match call
    case Delete(ids) => db.(pending := db.pending - ids)
    case Send(topic, body) => db.(sent := db.sent + [Message(cid, topic, body)])
    case InsertLog(rows) => db.(log := db.log + rows)
    case MarkSynced(tns) => db.(synced := db.synced + tns)
  }

  // ---------------------------------------------------------------- the job in its own form

  /** The services the job calls; each call may fail without effect. `issued` lists the calls made. */
  class Services {
    var db: Db
    ghost var issued: Script

    method DeleteByIds(cid: Cid, ids: set<nat>) returns (ok: bool)
      modifies this
      ensures ok ==> db == Apply(old(db), cid, Delete(ids)) && issued == old(issued) + [Delete(ids)]
      ensures !ok ==> db == old(db) && issued == old(issued)
    {
      ok := *;
      if ok {
        db := db.(pending := db.pending - ids);
        issued := issued + [Delete(ids)];
      }
    }

    method KafkaEnqueue(cid: Cid, topic: string, body: seq<Request>) returns (ok: bool)
      modifies this
      ensures ok ==> db == Apply(old(db), cid, Send(topic, body)) && issued == old(issued) + [Send(topic, body)]
      ensures !ok ==> db == old(db) && issued == old(issued)
    {
      ok := *;
      if ok {
        db := db.(sent := db.sent + [Message(cid, topic, body)]);
        issued := issued + [Send(topic, body)];
      }
    }

    method BulkInsertLog(cid: Cid, rows: seq<LogRow>) returns (ok: bool)
      modifies this
      ensures ok ==> db == Apply(old(db), cid, InsertLog(rows)) && issued == old(issued) + [InsertLog(rows)]
      ensures !ok ==> db == old(db) && issued == old(issued)
    {
      ok := *;
      if ok {
        db := db.(log := db.log + rows);
        issued := issued + [InsertLog(rows)];
      }
    }

    method UpdateSync(cid: Cid, tns: set<string>) returns (ok: bool)
      modifies this
      ensures ok ==> db == Apply(old(db), cid, MarkSynced(tns)) && issued == old(issued) + [MarkSynced(tns)]
      ensures !ok ==> db == old(db) && issued == old(issued)
    {
      ok := *;
      if ok {
        db := db.(synced := db.synced + tns);
        issued := issued + [MarkSynced(tns)];
      }
    }
  }

  function ApplyAll(db: Db, cid: Cid, script: Script): Db
    decreases script
  {
    if script == [] then db else ApplyAll(Apply(db, cid, script[0]), cid, script[1..])
  }

  lemma {:induction false} ApplyAllAppend(db: Db, cid: Cid, script: Script, call: Call)
    ensures ApplyAll(db, cid, script + [call]) == Apply(ApplyAll(db, cid, script), cid, call)
    decreases script
  {
    if script == [] {
      assert script + [call] == [call];
    } else {
      assert (script + [call])[1..] == script[1..] + [call];
      ApplyAllAppend(Apply(db, cid, script[0]), cid, script[1..], call);
    }
  }

  /** `movePushRequestToLog`: log, then delete, then mark the parcels as synced. */
  method MovePushRequestToLog(services: Services, cid: Cid, rows: seq<Request>) returns (ok: bool, ghost done: Script)
    requires rows != []
    modifies services
    ensures done <= [InsertLog(LogRows(rows)), Delete(Ids(rows)), MarkSynced(TrackingNumbers(rows))]
    ensures ok ==> |done| == 3
    ensures services.issued == old(services.issued) + done && services.db == ApplyAll(old(services.db), cid, done)
  {
    done := [];
    ok := services.BulkInsertLog(cid, LogRows(rows));
    if !ok { return; }
    done := done + [InsertLog(LogRows(rows))];
    ok := services.DeleteByIds(cid, Ids(rows));
    if !ok { return; }
    ApplyAllAppend(old(services.db), cid, done, Delete(Ids(rows)));
    done := done + [Delete(Ids(rows))];
    ok := services.UpdateSync(cid, TrackingNumbers(rows));
    if !ok { return; }
    ApplyAllAppend(old(services.db), cid, done, MarkSynced(TrackingNumbers(rows)));
    done := done + [MarkSynced(TrackingNumbers(rows))];
  }

  lemma {:induction false} ApplyAllConcat(db: Db, cid: Cid, a: Script, b: Script)
    ensures ApplyAll(db, cid, a + b) == ApplyAll(ApplyAll(db, cid, a), cid, b)
    decreases a
  {
    if a == [] {
      assert a + b == b;
    } else {
      assert (a + b)[1..] == a[1..] + b;
      ApplyAllConcat(Apply(db, cid, a[0]), cid, a[1..], b);
    }
  }

  /** One loop turn: send the chunk, then move it to the log. */
  method PushChunk(services: Services, cid: Cid, topic: string, chunk: seq<Request>)
    returns (ok: bool, ghost done: Script)
    requires chunk != []
    modifies services
    ensures done <= [Send(topic, chunk), InsertLog(LogRows(chunk)), Delete(Ids(chunk)),
                     MarkSynced(TrackingNumbers(chunk))]
    ensures ok ==> |done| == 4
    ensures services.issued == old(services.issued) + done && services.db == ApplyAll(old(services.db), cid, done)
  {
    done := [];
    ok := services.KafkaEnqueue(cid, topic, chunk);
    if !ok { return; }
    ghost var moved;
    ok, moved := MovePushRequestToLog(services, cid, chunk);
    done := [Send(topic, chunk)] + moved;
    assert done[1..] == moved;
  }

  /** The calls `done` lead from one state of the services to another. */
  ghost predicate Made(issued: Script, db: Db, issued': Script, db': Db, cid: Cid, done: Script) {
    issued' == issued + done && db' == ApplyAll(db, cid, done)
  }

  /** What is done of the chunks; while nothing failed, the first i of them. */
  ghost predicate ChunksDone(topic: string, chunks: seq<seq<Request>>, i: nat, done: Script, ok: bool)
    requires i <= |chunks|
  {
    && done <= ChunksScript(topic, chunks)
    && (ok ==> ChunksScript(topic, chunks) == done + ChunksScript(topic, chunks[i..]))
  }

  method PushChunks(services: Services, cid: Cid, topic: string, chunks: seq<seq<Request>>)
    returns (ok: bool, ghost done: Script)
    requires forall i :: 0 <= i < |chunks| ==> chunks[i] != []
    modifies services
    ensures done <= ChunksScript(topic, chunks)
    ensures ok ==> done == ChunksScript(topic, chunks)
    ensures services.issued == old(services.issued) + done && services.db == ApplyAll(old(services.db), cid, done)
  {
    ok, done := true, [];
    var i := 0;
    assert chunks[0..] == chunks;
    while ok && i < |chunks|
      invariant 0 <= i <= |chunks| && ChunksDone(topic, chunks, i, done, ok)
      invariant Made(old(services.issued), old(services.db), services.issued, services.db, cid, done)
    {
      ghost var made;
      ok, made := PushChunk(services, cid, topic, chunks[i]);
      TurnDone(old(services.issued), old(services.db), cid, topic, chunks, i, done, made);
      done := done + made;
      i := i + 1;
    }
  }

  /** Calls made after `done` extend the calls, the state and the list of issued calls alike. */
  lemma MoreDone(issued: Script, db: Db, cid: Cid, done: Script, made: Script, part: Script)
    requires made <= part
    ensures done + made <= done + part
    ensures ApplyAll(db, cid, done + made) == ApplyAll(ApplyAll(db, cid, done), cid, made)
    ensures issued + (done + made) == (issued + done) + made
  {
    ApplyAllConcat(db, cid, done, made);
    assert done + part == (done + made) + part[|made|..];
  }

  /** One loop turn extends the calls made by those of one chunk. */
  lemma TurnDone(issued: Script, db: Db, cid: Cid, topic: string, chunks: seq<seq<Request>>, i: nat, done: Script,
                 made: Script)
    requires i < |chunks| && made <= ChunkScript(topic, chunks[i]) && ChunksDone(topic, chunks, i, done, true)
    ensures ChunksDone(topic, chunks, i + 1, done + made, made == ChunkScript(topic, chunks[i]))
    ensures ApplyAll(db, cid, done + made) == ApplyAll(ApplyAll(db, cid, done), cid, made)
    ensures issued + (done + made) == (issued + done) + made
  {
    var part, rest := ChunkScript(topic, chunks[i]), ChunksScript(topic, chunks[i + 1..]);
    assert chunks[i..][1..] == chunks[i + 1..];
    MoreDone(issued, db, cid, done, made, part);
    assert done + (part + rest) == (done + part) + rest;
  }

  /** The coroutine of one platform makes exactly the calls of its script, in order, up to its first failure. */
  method RunPlatform(services: Services, cid: Cid, pushRequests: seq<Request>, configs: seq<Config>)
    returns (ok: bool, ghost done: Script)
    modifies services
    ensures done <= PlatformScript(pushRequests, cid.platform, configs)
    ensures ok ==> done == PlatformScript(pushRequests, cid.platform, configs)
    ensures services.issued == old(services.issued) + done && services.db == ApplyAll(old(services.db), cid, done)
  {
    done := [];
    var config := FindConfig(configs, cid.platform);
    if config.None? {
      ok := services.DeleteByIds(cid, Ids(pushRequests));
      if ok { done := [Delete(Ids(pushRequests))]; }
      return;
    }
    var needDeleteArray, resultArray := Dropped(config.value, pushRequests), Kept(config.value, pushRequests);
    if needDeleteArray != [] {
      ok := services.DeleteByIds(cid, Ids(needDeleteArray));
      if !ok { return; }
      done := [Delete(Ids(needDeleteArray))];
    }
    ChunkPartitions(resultArray, 1000);
    ghost var made;
    ok, made := PushChunks(services, cid, config.value.topic, Chunk(resultArray, 1000));
    MoreDone(old(services.issued), old(services.db), cid, done, made,
             ChunksScript(config.value.topic, Chunk(resultArray, 1000)));
    done := done + made;
  }

  // ---------------------------------------------------------------- all interleavings

  /** What one run worked with: the rows it fetched, then the configurations it read. */
  datatype Read = Read(rows: seq<Request>, configs: seq<Config>)

  /** `ever` remembers every request ever inserted, `seen` what each run worked with. `loading` holds the
      runs between their two reads, `todo` the coroutines by their remaining calls. */
  datatype State = State(
    db: Db,
    ever: map<nat, Request>,
    seen: map<nat, Read>,
    loading: map<nat, seq<Request>>,
    todo: map<Cid, Script>)

  predicate Ascending(rs: seq<Request>) { forall i, j :: 0 <= i < j < |rs| ==> rs[i].id < rs[j].id }

  /** `find({ take: 50000, order: { id: 'ASC' } })`: the pending rows with the smallest ids. */
  ghost predicate Fetched(pending: map<nat, Request>, rs: seq<Request>) {
    && Ascending(rs) && |rs| <= 50000
    && (forall i :: 0 <= i < |rs| ==> rs[i].id in pending && pending[rs[i].id] == rs[i])
    && (forall id :: id in pending && id !in Ids(rs) ==> |rs| == 50000 && forall i :: 0 <= i < |rs| ==> rs[i].id < id)
  }

  ghost predicate Insert(s: State, s': State, r: Request) {
    r.id !in s.ever && s' == s.(ever := s.ever[r.id := r], db := s.db.(pending := s.db.pending[r.id := r]))
  }

  ghost predicate Fetch(s: State, s': State, run: nat, rs: seq<Request>) {
    && run !in s.loading && run !in s.seen
    && rs != [] && Fetched(s.db.pending, rs)
    && s' == s.(loading := s.loading[run := rs])
  }

  /** A fetch takes the whole table if it fits, and otherwise the 50,000 rows with the smallest ids. */
  lemma FetchTakes(s: State, s': State, run: nat, rs: seq<Request>)
    requires Fetch(s, s', run, rs)
    ensures |rs| == if |s.db.pending| <= 50000 then |s.db.pending| else 50000
    ensures forall i, j :: i in s.db.pending && j in Ids(rs) && i < j ==> i in Ids(rs)
  {
    var ids := Ids(rs);
    IdsCount(rs);
    forall id | id in ids ensures id in s.db.pending {
      var r :| r in rs && r.id == id;
    }
    assert ids <= s.db.pending.Keys;
    Smaller(ids, s.db.pending.Keys);
    if |rs| < 50000 { assert ids == s.db.pending.Keys; }
  }

  lemma {:induction false} IdsCount(rs: seq<Request>)
    requires Ascending(rs)
    ensures |Ids(rs)| == |rs|
  {
    if rs != [] {
      var n := |rs| - 1;
      IdsCount(rs[..n]);
      assert Ids(rs) == Ids(rs[..n]) + {rs[n].id} && rs[n].id !in Ids(rs[..n]);
    }
  }

  lemma Smaller(a: set<nat>, b: set<nat>)
    requires a <= b
    ensures |a| <= |b|
  {
    assert b == a + (b - a);
  }

  function Platforms(rs: seq<Request>): set<string> { set r | r in rs :: r.fields.platform }

  function Scripts(run: nat, rs: seq<Request>, configs: seq<Config>): map<Cid, Script> {
    map cid | cid in (set p | p in Platforms(rs) :: Cid(run, p)) ::
      PlatformScript(OfPlatform(rs, cid.platform), cid.platform, configs)
  }

  /** The configurations are read, the rows grouped, and one coroutine started per platform. */
  ghost predicate Start(s: State, s': State, run: nat, configs: seq<Config>) {
    && run in s.loading
    && s' == s.(loading := s.loading - {run}, seen := s.seen[run := Read(s.loading[run], configs)],
                todo := s.todo + Scripts(run, s.loading[run], configs))
  }

  /** A coroutine makes its next call. */
  ghost predicate MakeCall(s: State, s': State, cid: Cid) {
    && cid in s.todo && s.todo[cid] != []
    && s' == s.(db := Apply(s.db, cid, s.todo[cid][0]), todo := s.todo[cid := s.todo[cid][1..]])
  }

  /** A call throws, although it took effect or not, and ends its coroutine. */
  ghost predicate Fail(s: State, s': State, cid: Cid) {
    && cid in s.todo && s.todo[cid] != []
    && (s' == s.(todo := s.todo - {cid}) || s' == s.(db := Apply(s.db, cid, s.todo[cid][0]), todo := s.todo - {cid}))
  }

  ghost predicate Crash(s: State, s': State) { s' == s.(loading := map[], todo := map[]) }

  ghost predicate Next(s: State, s': State) {
    || (exists r: Request :: Insert(s, s', r))
    || (exists run: nat, rs: seq<Request> :: Fetch(s, s', run, rs))
    || (exists run: nat, configs: seq<Config> :: Start(s, s', run, configs))
    || (exists cid: Cid :: MakeCall(s, s', cid))
    || (exists cid: Cid :: Fail(s, s', cid))
    || Crash(s, s')
  }

  ghost predicate Init(s: State) { s == State(Db(map[], [], [], {}), map[], map[], map[], map[]) }

  ghost predicate StepAt(b: seq<State>, k: nat) { 0 < k < |b| ==> Next(b[k - 1], b[k]) }

  ghost predicate Behaviour(b: seq<State>) { |b| > 0 && Init(b[0]) && forall k: nat :: StepAt(b, k) }

  // ---------------------------------------------------------------- the invariant

  predicate WasSent(db: Db, r: Request) { exists i :: 0 <= i < |db.sent| && r in db.sent[i].body }

  /** A request that the log row was written for was sent. */
  predicate RowSent(db: Db, row: LogRow) {
    exists i, r :: 0 <= i < |db.sent| && r in db.sent[i].body && r.id == row.of && r.fields == row.fields
  }

  /** A parcel marked as synced was sent. */
  predicate NumberSent(db: Db, tn: string) {
    exists i, r :: 0 <= i < |db.sent| && r in db.sent[i].body && r.fields.trackingNumber == tn
  }

  predicate Logged(db: Db, r: Request) { LogRow(r.id, r.fields) in db.log }

  /** The first configuration of the platform is the one at k. */
  predicate FirstAt(configs: seq<Config>, platform: string, k: nat) {
    k < |configs| && configs[k].platform == platform && forall j :: 0 <= j < k ==> configs[j].platform != platform
  }

  /** The rules that let a request go unsent: no enabled configuration of its platform, or the first one lists
      neither * nor its transporter, or status CREATED. */
  ghost predicate DroppedByRule(configs: seq<Config>, r: Request) {
    || (forall c :: c in configs ==> c.platform != r.fields.platform)
    || exists k: nat :: FirstAt(configs, r.fields.platform, k)
         && (r.fields.status == "CREATED"
             || ("*" !in configs[k].transporters && r.fields.transporter !in configs[k].transporters))
  }

  /** The topic is that of the first configuration of the platform. */
  ghost predicate Topic(configs: seq<Config>, platform: string, topic: string) {
    exists k: nat :: FirstAt(configs, platform, k) && configs[k].topic == topic
  }

  /** The run fetched the request, and its own configurations drop it. */
  ghost predicate DroppedBy(seen: map<nat, Read>, run: nat, r: Request) {
    run in seen && r in seen[run].rows && DroppedByRule(seen[run].configs, r)
  }

  ghost predicate Dropworthy(seen: map<nat, Read>, r: Request) { exists run :: DroppedBy(seen, run, r) }

  /** A message as it should be: fetched rows of one platform, to the topic its own run's configurations
      name, without rows they drop, 1 to 1000 of them in ascending id order. */
  ghost predicate GoodMessage(seen: map<nat, Read>, cid: Cid, topic: string, body: seq<Request>) {
    && 1 <= |body| <= 1000 && Ascending(body)
    && cid.run in seen && MessageFits(seen[cid.run].configs, cid.platform, topic, body)
    && forall r :: r in body ==> r in seen[cid.run].rows
  }

  ghost predicate MessageFits(configs: seq<Config>, platform: string, topic: string, body: seq<Request>) {
    && Topic(configs, platform, topic)
    && forall r :: r in body ==> r.fields.platform == platform && !DroppedByRule(configs, r)
  }

  /** The remaining calls of a coroutine send only good messages, log and mark only what was sent or is in
      `sending`, and delete only what is droppable, logged, or in `logging`. */
  ghost predicate Safe(s: State, cid: Cid, script: Script, sending: seq<Request>, logging: seq<LogRow>)
    decreases script
  {
    script == [] ||
    match script[0]
    case Send(topic, body) =>
      && GoodMessage(s.seen, cid, topic, body)
      && (forall r :: r in body ==> r.id in s.ever && s.ever[r.id] == r)
      && Safe(s, cid, script[1..], sending + body, logging)
    case Delete(ids) =>
      (forall id :: id in ids ==> MayGo(s, cid, id, logging)) && Safe(s, cid, script[1..], sending, logging)
    case InsertLog(rows) =>
      (forall f :: f in rows ==> MayLog(s.db, f, sending)) && Safe(s, cid, script[1..], sending, logging + rows)
    case MarkSynced(tns) =>
      (forall tn :: tn in tns ==> MayMark(s.db, tn, sending)) && Safe(s, cid, script[1..], sending, logging)
  }

  ghost predicate MayGo(s: State, cid: Cid, id: nat, logging: seq<LogRow>) {
    id in s.ever
    && (LogRow(id, s.ever[id].fields) in logging || LogRow(id, s.ever[id].fields) in s.db.log
        || DroppedBy(s.seen, cid.run, s.ever[id]))
  }

  predicate MayLog(db: Db, row: LogRow, sending: seq<Request>) {
    RowSent(db, row) || exists r :: r in sending && r.id == row.of && r.fields == row.fields
  }

  predicate MayMark(db: Db, tn: string, sending: seq<Request>) {
    NumberSent(db, tn) || exists r :: r in sending && r.fields.trackingNumber == tn
  }

  ghost predicate Accounted(s: State, id: nat)
    requires id in s.ever
  {
    id in s.db.pending || Logged(s.db, s.ever[id]) || Dropworthy(s.seen, s.ever[id])
  }

  // ---------------------------------------------------------------- scripts are safe when written

  /** The configuration that is found is the first of its platform. */
  lemma {:induction false} FindsFirst(configs: seq<Config>, platform: string)
    ensures FindConfig(configs, platform) == None <==> forall c :: c in configs ==> c.platform != platform
    ensures forall k: nat :: FirstAt(configs, platform, k) ==> FindConfig(configs, platform) == Some(configs[k])
    ensures FindConfig(configs, platform).Some? ==> exists k: nat :: FirstAt(configs, platform, k)
  {
    if configs != [] {
      var rest := configs[1..];
      FindsFirst(rest, platform);
      if configs[0].platform == platform {
        assert FirstAt(configs, platform, 0);
      } else {
        forall k: nat | FirstAt(configs, platform, k) ensures FindConfig(configs, platform) == Some(configs[k]) {
          assert FirstAt(rest, platform, k - 1);
        }
        if FindConfig(rest, platform).Some? {
          var k: nat :| FirstAt(rest, platform, k);
          assert FirstAt(configs, platform, k + 1);
        }
      }
    }
  }

  lemma DropsByRule(configs: seq<Config>, r: Request)
    ensures var c := FindConfig(configs, r.fields.platform);
            DroppedByRule(configs, r) <==> c.None? || ToDrop(c.value, r)
  {
    FindsFirst(configs, r.fields.platform);
  }

  /** The rules drop what is found to have no configuration or to be dropped by it. */
  lemma DropsFound(rs: seq<Request>, configs: seq<Config>, platform: string)
    requires forall r :: r in rs ==> r.fields.platform == platform
    ensures var config := FindConfig(configs, platform);
            forall r :: r in rs ==> (DroppedByRule(configs, r) <==> config.None? || ToDrop(config.value, r))
  {
    forall r | r in rs
      ensures var config := FindConfig(configs, platform);
              DroppedByRule(configs, r) <==> config.None? || ToDrop(config.value, r)
    {
      DropsByRule(configs, r);
    }
  }

  lemma TopicFound(configs: seq<Config>, platform: string, c: Config)
    requires FindConfig(configs, platform) == Some(c)
    ensures Topic(configs, platform, c.topic)
  {
    FindsFirst(configs, platform);
    var k: nat :| FirstAt(configs, platform, k);
  }

  lemma {:induction false} KeptIsFilter(c: Config, rs: seq<Request>)
    ensures forall r :: r in Kept(c, rs) <==> r in rs && !ToDrop(c, r)
    ensures forall r :: r in Dropped(c, rs) <==> r in rs && ToDrop(c, r)
    ensures Ascending(rs) ==> Ascending(Kept(c, rs))
  {
    if rs != [] {
      KeptIsFilter(c, rs[1..]);
      if Ascending(rs) { AscendingTail(rs); }
    }
  }

  lemma AscendingTail(rs: seq<Request>)
    requires rs != [] && Ascending(rs)
    ensures Ascending(rs[1..]) && forall r :: r in rs[1..] ==> rs[0].id < r.id
  {
  }

  lemma {:induction false} PlatformIsFilter(rs: seq<Request>, platform: string)
    ensures forall r :: r in OfPlatform(rs, platform) <==> r in rs && r.fields.platform == platform
    ensures Ascending(rs) ==> Ascending(OfPlatform(rs, platform))
  {
    if rs != [] {
      PlatformIsFilter(rs[1..], platform);
      if Ascending(rs) { AscendingTail(rs); }
    }
  }

  lemma {:induction false} ChunksAscending(rs: seq<Request>, n: nat)
    requires n > 0 && Ascending(rs)
    ensures forall i :: 0 <= i < |Chunk(rs, n)| ==>
              Ascending(Chunk(rs, n)[i]) && forall r :: r in Chunk(rs, n)[i] ==> r in rs
    decreases |rs|
  {
    if |rs| > n {
      assert Ascending(rs[n..]);
      ChunksAscending(rs[n..], n);
    }
  }

  lemma LogRowsAre(rs: seq<Request>)
    ensures forall f :: f in LogRows(rs) ==> exists r :: r in rs && r.id == f.of && r.fields == f.fields
    ensures forall r :: r in rs ==> LogRow(r.id, r.fields) in LogRows(rs)
  {
    forall f | f in LogRows(rs) ensures exists r :: r in rs && r.id == f.of && r.fields == f.fields {
      var i :| 0 <= i < |rs| && LogRows(rs)[i] == f;
      assert rs[i] in rs;
    }
    forall r | r in rs ensures LogRow(r.id, r.fields) in LogRows(rs) {
      var i :| 0 <= i < |rs| && rs[i] == r;
      assert LogRows(rs)[i] == LogRow(r.id, r.fields);
    }
  }

  /** Inserts, reads, sends and log rows are never undone. */
  ghost predicate Extends(s: State, s': State) {
    && (forall id :: id in s.ever ==> id in s'.ever && s'.ever[id] == s.ever[id])
    && (forall run :: run in s.seen ==> run in s'.seen && s'.seen[run] == s.seen[run])
    && s.db.sent <= s'.db.sent && s.db.log <= s'.db.log
  }

  lemma SentStable(s: State, s': State)
    requires Extends(s, s')
    ensures forall f :: RowSent(s.db, f) ==> RowSent(s'.db, f)
    ensures forall tn :: NumberSent(s.db, tn) ==> NumberSent(s'.db, tn)
    ensures forall r :: Dropworthy(s.seen, r) ==> Dropworthy(s'.seen, r)
  {
    forall r | Dropworthy(s.seen, r) ensures Dropworthy(s'.seen, r) {
      var run :| DroppedBy(s.seen, run, r);
      assert DroppedBy(s'.seen, run, r);
    }
    forall tn | NumberSent(s.db, tn) ensures NumberSent(s'.db, tn) {
      var i, r :| 0 <= i < |s.db.sent| && r in s.db.sent[i].body && r.fields.trackingNumber == tn;
      assert s'.db.sent[i] == s.db.sent[i];
    }
    forall f | RowSent(s.db, f) ensures RowSent(s'.db, f) {
      var i, r :| 0 <= i < |s.db.sent| && r in s.db.sent[i].body && r.id == f.of && r.fields == f.fields;
      assert s'.db.sent[i] == s.db.sent[i];
    }
  }

  lemma GoodStable(s: State, s': State, cid: Cid, topic: string, body: seq<Request>)
    requires Extends(s, s') && GoodMessage(s.seen, cid, topic, body)
    ensures GoodMessage(s'.seen, cid, topic, body)
  {
  }

  lemma MayStable(s: State, s': State, sending: seq<Request>, sending': seq<Request>)
    requires Extends(s, s')
    requires forall r :: r in sending ==> r in sending' || WasSent(s'.db, r)
    ensures forall f :: MayLog(s.db, f, sending) ==> MayLog(s'.db, f, sending')
    ensures forall tn :: MayMark(s.db, tn, sending) ==> MayMark(s'.db, tn, sending')
  {
    SentStable(s, s');
    forall f | MayLog(s.db, f, sending) ensures MayLog(s'.db, f, sending') {
      if !RowSent(s.db, f) {
        var r :| r in sending && r.id == f.of && r.fields == f.fields;
        if r !in sending' { assert WasSent(s'.db, r); }
      }
    }
    forall tn | MayMark(s.db, tn, sending) ensures MayMark(s'.db, tn, sending') {
      if !NumberSent(s.db, tn) {
        var r :| r in sending && r.fields.trackingNumber == tn;
        if r !in sending' { assert WasSent(s'.db, r); }
      }
    }
  }

  /** A safe script stays safe while the tables grow and what it was sending and logging still is, or was. */
  lemma {:induction false} SafeStable(s: State, s': State, cid: Cid, script: Script, sending: seq<Request>,
                                      logging: seq<LogRow>, sending': seq<Request>, logging': seq<LogRow>)
    requires Safe(s, cid, script, sending, logging) && Extends(s, s')
    requires forall r :: r in sending ==> r in sending' || WasSent(s'.db, r)
    requires forall f :: f in logging ==> f in logging' || f in s'.db.log
    ensures Safe(s', cid, script, sending', logging')
    decreases script
  {
    if script != [] {
      MayStable(s, s', sending, sending');
      match script[0]
      case Send(topic, body) =>
        GoodStable(s, s', cid, topic, body);
        SafeStable(s, s', cid, script[1..], sending + body, logging, sending' + body, logging');
      case Delete(ids) =>
        forall id | id in ids ensures MayGo(s', cid, id, logging') { assert MayGo(s, cid, id, logging); }
        SafeStable(s, s', cid, script[1..], sending, logging, sending', logging');
      case InsertLog(rows) =>
        SafeStable(s, s', cid, script[1..], sending, logging + rows, sending', logging' + rows);
      case MarkSynced(_) => SafeStable(s, s', cid, script[1..], sending, logging, sending', logging');
    }
  }

  ghost predicate Rows(s: State, rs: seq<Request>) { forall r :: r in rs ==> r.id in s.ever && s.ever[r.id] == r }

  lemma {:induction false} ChunksSafe(s: State, cid: Cid, topic: string, chunks: seq<seq<Request>>,
                                      sending: seq<Request>, logging: seq<LogRow>)
    requires forall i :: 0 <= i < |chunks| ==> GoodMessage(s.seen, cid, topic, chunks[i]) && Rows(s, chunks[i])
    ensures Safe(s, cid, ChunksScript(topic, chunks), sending, logging)
    decreases chunks
  {
    if chunks != [] {
      var chunk, rest := chunks[0], ChunksScript(topic, chunks[1..]);
      ChunksSafe(s, cid, topic, chunks[1..], sending + chunk, logging + LogRows(chunk));
      ChunkSafe(s, cid, topic, chunk, rest, sending, logging);
    }
  }

  lemma ChunkSafe(s: State, cid: Cid, topic: string, chunk: seq<Request>, rest: Script, sending: seq<Request>,
                  logging: seq<LogRow>)
    requires GoodMessage(s.seen, cid, topic, chunk) && Rows(s, chunk)
    requires Safe(s, cid, rest, sending + chunk, logging + LogRows(chunk))
    ensures Safe(s, cid, ChunkScript(topic, chunk) + rest, sending, logging)
  {
    var script, sent, logs := ChunkScript(topic, chunk) + rest, sending + chunk, logging + LogRows(chunk);
    LogRowsAre(chunk);
    assert script[4..] == rest && script[1..][1..] == script[2..] && script[2..][1..] == script[3..]
      && script[3..][1..] == rest;
    forall tn | tn in TrackingNumbers(chunk) ensures MayMark(s.db, tn, sent) {
      var r :| r in chunk && r.fields.trackingNumber == tn;
      assert r in sent;
    }
    assert Safe(s, cid, script[3..], sent, logs);
    forall id | id in Ids(chunk) ensures MayGo(s, cid, id, logs) {
      var r :| r in chunk && r.id == id;
      assert LogRow(r.id, r.fields) in LogRows(chunk);
    }
    assert Safe(s, cid, script[2..], sent, logs);
    forall f | f in LogRows(chunk) ensures MayLog(s.db, f, sent) {
      var r :| r in chunk && r.id == f.of && r.fields == f.fields;
      assert r in sent;
    }
    assert Safe(s, cid, script[1..], sent, logging);
  }

  /** Rows that the run of the coroutine fetched. */
  ghost predicate OwnRows(s: State, cid: Cid, rs: seq<Request>) {
    Rows(s, rs) && cid.run in s.seen && forall r :: r in rs ==> r in s.seen[cid.run].rows
  }

  lemma DropSafe(s: State, cid: Cid, rs: seq<Request>, rest: Script)
    requires OwnRows(s, cid, rs) && forall r :: r in rs ==> DroppedByRule(s.seen[cid.run].configs, r)
    requires Safe(s, cid, rest, [], [])
    ensures Safe(s, cid, [Delete(Ids(rs))] + rest, [], [])
  {
    var script := [Delete(Ids(rs))] + rest;
    assert script[1..] == rest;
    forall id | id in Ids(rs) ensures MayGo(s, cid, id, []) {
      var r :| r in rs && r.id == id;
      assert DroppedByRule(s.seen[cid.run].configs, r);
    }
  }

  lemma KeptChunksSafe(s: State, cid: Cid, rs: seq<Request>, c: Config)
    requires OwnRows(s, cid, rs) && Ascending(rs) && FindConfig(s.seen[cid.run].configs, cid.platform) == Some(c)
    requires forall r :: r in rs ==> r.fields.platform == cid.platform
    ensures Safe(s, cid, ChunksScript(c.topic, Chunk(Kept(c, rs), 1000)), [], [])
  {
    var kept := Kept(c, rs);
    KeptIsFilter(c, rs);
    ChunkPartitions(kept, 1000);
    ChunksAscending(kept, 1000);
    var chunks := Chunk(kept, 1000);
    forall i | 0 <= i < |chunks| ensures GoodMessage(s.seen, cid, c.topic, chunks[i]) && Rows(s, chunks[i]) {
      DropsFound(chunks[i], s.seen[cid.run].configs, cid.platform);
      TopicFound(s.seen[cid.run].configs, cid.platform, c);
      assert MessageFits(s.seen[cid.run].configs, cid.platform, c.topic, chunks[i]);
    }
    ChunksSafe(s, cid, c.topic, chunks, [], []);
  }

  /** The calls of a coroutine delete only rows it sent before or its own run's configurations drop. */
  lemma PlatformScriptSafe(s: State, cid: Cid, rs: seq<Request>)
    requires OwnRows(s, cid, rs) && Ascending(rs)
    requires forall r :: r in rs ==> r.fields.platform == cid.platform
    ensures Safe(s, cid, PlatformScript(rs, cid.platform, s.seen[cid.run].configs), [], [])
  {
    DropsFound(rs, s.seen[cid.run].configs, cid.platform);
    var config := FindConfig(s.seen[cid.run].configs, cid.platform);
    if config.None? {
      DropSafe(s, cid, rs, []);
      assert [Delete(Ids(rs))] + [] == [Delete(Ids(rs))];
    } else {
      var c := config.value;
      KeptIsFilter(c, rs);
      KeptChunksSafe(s, cid, rs, c);
      var script := ChunksScript(c.topic, Chunk(Kept(c, rs), 1000));
      if Dropped(c, rs) == [] {
        assert [] + script == script;
      } else {
        DropSafe(s, cid, Dropped(c, rs), script);
      }
    }
  }

  // ---------------------------------------------------------------- every step keeps the invariant

  ghost predicate DbOk(s: State) {
    && (forall id :: id in s.db.pending ==> id in s.ever && s.db.pending[id] == s.ever[id])
    && (forall id :: id in s.ever ==> Accounted(s, id) && s.ever[id].id == id)
    && (forall f :: f in s.db.log ==> RowSent(s.db, f))
    && (forall tn :: tn in s.db.synced ==> NumberSent(s.db, tn))
    && (forall i :: 0 <= i < |s.db.sent| ==> SentWell(s, s.db.sent[i]))
  }

  ghost predicate SentWell(s: State, m: Message) {
    GoodMessage(s.seen, m.cid, m.topic, m.body) && Rows(s, m.body)
  }

  ghost predicate FetchedRows(s: State, rs: seq<Request>) { Rows(s, rs) && Ascending(rs) && 1 <= |rs| <= 50000 }

  ghost predicate LoadingOk(s: State) {
    forall run :: run in s.loading ==> run !in s.seen && FetchedRows(s, s.loading[run])
  }

  ghost predicate TodoOk(s: State) { forall cid :: cid in s.todo ==> Safe(s, cid, s.todo[cid], [], []) }

  ghost predicate Inv(s: State) { DbOk(s) && LoadingOk(s) && TodoOk(s) }

  /** Growth keeps every coroutine it does not move. */
  lemma TodoKept(s: State, s': State)
    requires TodoOk(s) && Extends(s, s')
    requires forall cid :: cid in s'.todo ==> cid in s.todo && s'.todo[cid] == s.todo[cid]
    ensures TodoOk(s')
  {
    forall cid | cid in s'.todo ensures Safe(s', cid, s'.todo[cid], [], []) {
      SafeStable(s, s', cid, s.todo[cid], [], [], [], []);
    }
  }

  lemma LoadingKept(s: State, s': State)
    requires LoadingOk(s) && Extends(s, s')
    requires forall run :: run in s'.loading ==>
             run in s.loading && s'.loading[run] == s.loading[run] && run !in s'.seen
    ensures LoadingOk(s')
  {
  }

  lemma InsertKeeps(s: State, s': State, r: Request)
    requires Inv(s) && Insert(s, s', r)
    ensures Inv(s')
  {
    SentStable(s, s');
    TodoKept(s, s');
    LoadingKept(s, s');
    forall i | 0 <= i < |s'.db.sent| ensures SentWell(s', s'.db.sent[i]) { assert SentWell(s, s.db.sent[i]); }
    forall id | id in s'.ever ensures Accounted(s', id) && s'.ever[id].id == id {
      if id != r.id { assert Accounted(s, id); }
    }
  }

  lemma FetchKeeps(s: State, s': State, run: nat, rs: seq<Request>)
    requires Inv(s) && Fetch(s, s', run, rs)
    ensures Inv(s')
  {
    TodoKept(s, s');
    UnsentKept(s, s');
    forall r | r in s'.loading ensures r !in s'.seen && FetchedRows(s', s'.loading[r]) {
      if r != run { assert FetchedRows(s, s.loading[r]); }
    }
  }

  lemma StartKeeps(s: State, s': State, run: nat, configs: seq<Config>)
    requires Inv(s) && Start(s, s', run, configs)
    ensures Inv(s')
  {
    var rs := s.loading[run];
    SentStable(s, s');
    assert DbOk(s') by {
      forall i | 0 <= i < |s'.db.sent| ensures SentWell(s', s'.db.sent[i]) {
        var m := s.db.sent[i];
        assert SentWell(s, m);
        GoodStable(s, s', m.cid, m.topic, m.body);
      }
      forall id | id in s'.ever ensures Accounted(s', id) { assert Accounted(s, id); }
    }
    forall cid | cid in s'.todo ensures Safe(s', cid, s'.todo[cid], [], []) {
      if cid in Scripts(run, rs, configs) {
        PlatformIsFilter(rs, cid.platform);
        PlatformScriptSafe(s', cid, OfPlatform(rs, cid.platform));
      } else {
        SafeStable(s, s', cid, s.todo[cid], [], [], [], []);
      }
    }
  }

  /** The effect of a safe script's first call keeps the tables good, and its rest safe. */
  lemma EffectKeeps(s: State, s': State, cid: Cid, script: Script)
    requires DbOk(s) && script != [] && Safe(s, cid, script, [], [])
    requires s' == s.(db := Apply(s.db, cid, script[0]), todo := s'.todo)
    ensures DbOk(s') && Extends(s, s') && Safe(s', cid, script[1..], [], [])
  {
    match script[0]
    case Send(topic, body) => SendKeeps(s, s', cid, script, topic, body);
    case Delete(ids) =>
      forall id | id in ids ensures Logged(s.db, s.ever[id]) || Dropworthy(s.seen, s.ever[id]) {
        assert MayGo(s, cid, id, []);
      }
      DeleteKeeps(s, s', ids);
      SafeStable(s, s', cid, script[1..], [], [], [], []);
    case InsertLog(rows) =>
      SentStable(s, s');
      SafeStable(s, s', cid, script[1..], [], [] + rows, [], []);
      forall f | f in rows ensures RowSent(s.db, f) { assert MayLog(s.db, f, []); }
      UnsentKept(s, s');
    case MarkSynced(tns) =>
      SentStable(s, s');
      SafeStable(s, s', cid, script[1..], [], [], [], []);
      forall tn | tn in tns ensures NumberSent(s.db, tn) { assert MayMark(s.db, tn, []); }
      UnsentKept(s, s');
  }

  lemma UnsentKept(s: State, s': State)
    requires DbOk(s) && s'.ever == s.ever && s'.seen == s.seen && s'.db.pending == s.db.pending
             && s'.db.sent == s.db.sent && s.db.log <= s'.db.log
    requires forall f :: f in s'.db.log ==> RowSent(s'.db, f)
    requires forall tn :: tn in s'.db.synced ==> NumberSent(s'.db, tn)
    ensures DbOk(s')
  {
    forall i | 0 <= i < |s'.db.sent| ensures SentWell(s', s'.db.sent[i]) { assert SentWell(s, s.db.sent[i]); }
    forall id | id in s'.ever ensures Accounted(s', id) { assert Accounted(s, id); }
  }

  lemma DeleteKeeps(s: State, s': State, ids: set<nat>)
    requires DbOk(s) && s' == s.(db := s.db.(pending := s.db.pending - ids), todo := s'.todo)
    requires forall id :: id in ids ==> id in s.ever && (Logged(s.db, s.ever[id]) || Dropworthy(s.seen, s.ever[id]))
    ensures DbOk(s') && Extends(s, s')
  {
    SentStable(s, s');
    forall i | 0 <= i < |s'.db.sent| ensures SentWell(s', s'.db.sent[i]) { assert SentWell(s, s.db.sent[i]); }
    forall id | id in s'.ever ensures Accounted(s', id) { assert Accounted(s, id); }
  }

  lemma SendKeeps(s: State, s': State, cid: Cid, script: Script, topic: string, body: seq<Request>)
    requires DbOk(s) && script != [] && script[0] == Send(topic, body) && Safe(s, cid, script, [], [])
    requires s' == s.(db := s.db.(sent := s.db.sent + [Message(cid, topic, body)]), todo := s'.todo)
    ensures DbOk(s') && Extends(s, s') && Safe(s', cid, script[1..], [], [])
  {
    SentStable(s, s');
    var last := |s.db.sent|;
    assert s'.db.sent[last] == Message(cid, topic, body);
    forall r | r in [] + body ensures WasSent(s'.db, r) { assert r in s'.db.sent[last].body; }
    SafeStable(s, s', cid, script[1..], [] + body, [], [], []);
    forall i | 0 <= i < |s'.db.sent| ensures SentWell(s', s'.db.sent[i]) {
      if i < last { assert s'.db.sent[i] == s.db.sent[i] && SentWell(s, s.db.sent[i]); }
    }
    forall id | id in s'.ever ensures Accounted(s', id) { assert Accounted(s, id); }
  }

  lemma MakeCallKeeps(s: State, s': State, cid: Cid)
    requires Inv(s) && (MakeCall(s, s', cid) || Fail(s, s', cid))
    ensures Inv(s')
  {
    var script := s.todo[cid];
    if s' == s.(todo := s.todo - {cid}) {
      TodoKept(s, s');
      LoadingKept(s, s');
      UnsentKept(s, s');
    } else {
      EffectKeeps(s, s', cid, script);
      LoadingKept(s, s');
      forall c | c in s'.todo ensures Safe(s', c, s'.todo[c], [], []) {
        if c != cid { SafeStable(s, s', c, s.todo[c], [], [], [], []); }
      }
    }
  }

  lemma NextKeeps(s: State, s': State)
    requires Inv(s) && Next(s, s')
    ensures Inv(s')
  {
    if r: Request :| Insert(s, s', r) {
      InsertKeeps(s, s', r);
    } else if run: nat, rs: seq<Request> :| Fetch(s, s', run, rs) {
      FetchKeeps(s, s', run, rs);
    } else if run: nat, configs: seq<Config> :| Start(s, s', run, configs) {
      StartKeeps(s, s', run, configs);
    } else if cid: Cid :| MakeCall(s, s', cid) {
      MakeCallKeeps(s, s', cid);
    } else if cid: Cid :| Fail(s, s', cid) {
      MakeCallKeeps(s, s', cid);
    } else {
      TodoKept(s, s');
      LoadingKept(s, s');
      UnsentKept(s, s');
    }
  }

  lemma {:induction false} InvAlways(b: seq<State>, k: nat)
    requires Behaviour(b) && k < |b|
    ensures Inv(b[k])
  {
    if k > 0 {
      InvAlways(b, k - 1);
      assert StepAt(b, k);
      NextKeeps(b[k - 1], b[k]);
    }
  }

  // ---------------------------------------------------------------- over whole runs

  /** Whatever interleaves or fails, a request that is not pending was sent and logged, or was fetched by some
      run whose own configurations drop it. */
  lemma NothingLost(b: seq<State>, k: nat, id: nat)
    requires Behaviour(b) && k < |b| && id in b[k].ever
    ensures || id in b[k].db.pending || (WasSent(b[k].db, b[k].ever[id]) && Logged(b[k].db, b[k].ever[id]))
            || exists run :: run in b[k].seen && b[k].ever[id] in b[k].seen[run].rows
                             && DroppedByRule(b[k].seen[run].configs, b[k].ever[id])
  {
    InvAlways(b, k);
    assert Accounted(b[k], id);
    if Logged(b[k].db, b[k].ever[id]) {
      LoggedSent(b[k], b[k].ever[id]);
    } else if Dropworthy(b[k].seen, b[k].ever[id]) {
      var run :| DroppedBy(b[k].seen, run, b[k].ever[id]);
      assert run in b[k].seen && b[k].ever[id] in b[k].seen[run].rows;
    }
  }

  lemma LoggedSent(s: State, r: Request)
    requires DbOk(s) && Logged(s.db, r)
    ensures WasSent(s.db, r)
  {
    assert RowSent(s.db, LogRow(r.id, r.fields));
    var i, q :| 0 <= i < |s.db.sent| && q in s.db.sent[i].body && q.id == r.id && q.fields == r.fields;
    assert q == r;
  }

  ghost predicate Calls(s: State, s': State, cid: Cid) { MakeCall(s, s', cid) || Fail(s, s', cid) }

  lemma OnlyCallsDelete(s: State, s': State, id: nat)
    requires Next(s, s') && id in s.db.pending && id !in s'.db.pending
    ensures exists cid :: Calls(s, s', cid)
  {
    assert !(exists r: Request :: Insert(s, s', r));
    if cid: Cid :| MakeCall(s, s', cid) {
      assert Calls(s, s', cid);
    } else {
      var cid: Cid :| Fail(s, s', cid);
      assert Calls(s, s', cid);
    }
  }

  lemma CallDeletesUnsent(s: State, s': State, cid: Cid, id: nat)
    requires Inv(s) && Calls(s, s', cid) && id in s.db.pending && id !in s'.db.pending
    requires id in s.ever && !WasSent(s.db, s.ever[id])
    ensures cid in s.todo && DroppedBy(s.seen, cid.run, s.ever[id])
  {
    assert Safe(s, cid, s.todo[cid], [], []) && MayGo(s, cid, id, []);
    if Logged(s.db, s.ever[id]) { LoggedSent(s, s.ever[id]); }
  }

  /** A request that a step deletes unsent is deleted by a coroutine whose own run fetched it and read
      configurations that drop it; so one inserted during a run is not deleted unsent by that run. */
  lemma DeletedUnsent(b: seq<State>, k: nat, id: nat)
    requires Behaviour(b) && k + 1 < |b| && id in b[k].db.pending && id !in b[k + 1].db.pending
    requires id in b[k].ever && !WasSent(b[k].db, b[k].ever[id])
    ensures exists cid :: cid in b[k].todo && DroppedBy(b[k].seen, cid.run, b[k].ever[id])
  {
    InvAlways(b, k);
    assert StepAt(b, k + 1);
    OnlyCallsDelete(b[k], b[k + 1], id);
    var cid :| Calls(b[k], b[k + 1], cid);
    CallDeletesUnsent(b[k], b[k + 1], cid, id);
  }

  /** Every log row and every synced number was sent, and every message has one platform, the topic that its own run's
      configurations name for it, 1 to 1000 of the rows its run fetched in ascending id order, and none
      that those configurations drop. */
  lemma LoggedWasSent(b: seq<State>, k: nat)
    requires Behaviour(b) && k < |b|
    ensures forall f :: f in b[k].db.log ==> RowSent(b[k].db, f)
    ensures forall tn :: tn in b[k].db.synced ==> NumberSent(b[k].db, tn)
    ensures forall m :: m in b[k].db.sent ==> GoodMessage(b[k].seen, m.cid, m.topic, m.body)
    ensures forall m, r :: m in b[k].db.sent && r in m.body ==> r.id in b[k].ever && b[k].ever[r.id] == r
  {
    InvAlways(b, k);
    forall m | m in b[k].db.sent ensures SentWell(b[k], m) {
      var i :| 0 <= i < |b[k].db.sent| && b[k].db.sent[i] == m;
    }
  }

  // ---------------------------------------------------------------- an error-free run

  function MessagesOf(sent: seq<Message>, cid: Cid): seq<Message> {
    if sent == [] then []
    else MessagesOf(sent[..|sent| - 1], cid) + (if sent[|sent| - 1].cid == cid then [sent[|sent| - 1]] else [])
  }

  function ScriptMessages(cid: Cid, script: Script): seq<Message>
    decreases script
  {
    if script == [] then []
    else
      var call := script[0];
      (if call.Send? then [Message(cid, call.topic, call.body)] else []) + ScriptMessages(cid, script[1..])
  }

  function ScriptDeletes(script: Script): set<nat> {
    if script == [] then {} else (if script[0].Delete? then script[0].ids else {}) + ScriptDeletes(script[1..])
  }

  function ScriptLogs(script: Script): set<LogRow> {
    if script == [] then {}
    else (if script[0].InsertLog? then set f | f in script[0].rows else {}) + ScriptLogs(script[1..])
  }

  function ScriptMarks(script: Script): set<string> {
    if script == [] then {}
    else (if script[0].MarkSynced? then script[0].trackingNumbers else {}) + ScriptMarks(script[1..])
  }

  /** The request is logged and its parcel marked as synced, or the script will do so. */
  predicate Moves(db: Db, script: Script, r: Request) {
    && (Logged(db, r) || LogRow(r.id, r.fields) in ScriptLogs(script))
    && (r.fields.trackingNumber in db.synced || r.fields.trackingNumber in ScriptMarks(script))
  }

  function ChunkMessages(cid: Cid, topic: string, chunks: seq<seq<Request>>): seq<Message>
    decreases chunks
  {
    if chunks == [] then [] else [Message(cid, topic, chunks[0])] + ChunkMessages(cid, topic, chunks[1..])
  }

  /** What the platform of a run should receive: its kept rows, in order, in messages of at most 1000. */
  function ExpectedMessages(run: nat, rs: seq<Request>, configs: seq<Config>, platform: string): seq<Message> {
    match FindConfig(configs, platform)
    case None => []
    case Some(c) => ChunkMessages(Cid(run, platform), c.topic, Chunk(Kept(c, OfPlatform(rs, platform)), 1000))
  }

  lemma {:induction false} ScriptAppend(cid: Cid, a: Script, b: Script)
    ensures ScriptMessages(cid, a + b) == ScriptMessages(cid, a) + ScriptMessages(cid, b)
    ensures ScriptDeletes(a + b) == ScriptDeletes(a) + ScriptDeletes(b)
    decreases a
  {
    if a == [] {
      assert a + b == b;
    } else {
      ScriptAppend(cid, a[1..], b);
      assert (a + b)[1..] == a[1..] + b;
    }
  }

  lemma {:induction false} LogsAppend(a: Script, b: Script)
    ensures ScriptLogs(a + b) == ScriptLogs(a) + ScriptLogs(b)
    ensures ScriptMarks(a + b) == ScriptMarks(a) + ScriptMarks(b)
  {
    if a == [] {
      assert a + b == b;
    } else {
      LogsAppend(a[1..], b);
      assert (a + b)[1..] == a[1..] + b;
    }
  }

  /** The script logs, deletes and marks the request. */
  predicate Handles(script: Script, r: Request) {
    && LogRow(r.id, r.fields) in ScriptLogs(script) && r.id in ScriptDeletes(script)
    && r.fields.trackingNumber in ScriptMarks(script)
  }

  lemma {:induction false} ChunksScriptMeans(cid: Cid, topic: string, chunks: seq<seq<Request>>)
    ensures ScriptMessages(cid, ChunksScript(topic, chunks)) == ChunkMessages(cid, topic, chunks)
    ensures forall i, r :: 0 <= i < |chunks| && r in chunks[i] ==> Handles(ChunksScript(topic, chunks), r)
    decreases chunks
  {
    if chunks != [] {
      var first, rest := ChunkScript(topic, chunks[0]), ChunksScript(topic, chunks[1..]);
      ChunksScriptMeans(cid, topic, chunks[1..]);
      ScriptAppend(cid, first, rest);
      LogsAppend(first, rest);
      ChunkScriptMeans(cid, topic, chunks[0]);
      forall i, r | 0 <= i < |chunks| && r in chunks[i] ensures Handles(first + rest, r) {
        if i > 0 { assert r in chunks[1..][i - 1] && Handles(rest, r); }
      }
    }
  }

  lemma ChunkScriptMeans(cid: Cid, topic: string, chunk: seq<Request>)
    ensures ScriptMessages(cid, ChunkScript(topic, chunk)) == [Message(cid, topic, chunk)]
    ensures forall r :: r in chunk ==> Handles(ChunkScript(topic, chunk), r)
  {
    LogRowsAre(chunk);
    var s := ChunkScript(topic, chunk);
    FirstCall(cid, s[3], []);
    FirstCall(cid, s[2], s[3..]);
    FirstCall(cid, s[1], s[2..]);
    FirstCall(cid, s[0], s[1..]);
    assert s[3..] == [s[3]] + [] && s[2..] == [s[2]] + s[3..] && s[1..] == [s[1]] + s[2..] && s == [s[0]] + s[1..];
  }

  lemma FirstCall(cid: Cid, call: Call, rest: Script)
    ensures ScriptMessages(cid, [call] + rest)
            == (if call.Send? then [Message(cid, call.topic, call.body)] else []) + ScriptMessages(cid, rest)
    ensures ScriptDeletes([call] + rest) == (if call.Delete? then call.ids else {}) + ScriptDeletes(rest)
    ensures ScriptLogs([call] + rest) == (if call.InsertLog? then set f | f in call.rows else {}) + ScriptLogs(rest)
    ensures ScriptMarks([call] + rest) == (if call.MarkSynced? then call.trackingNumbers else {}) + ScriptMarks(rest)
  {
    assert ([call] + rest)[1..] == rest;
  }

  lemma ScriptHandlesKept(cid: Cid, rs: seq<Request>, c: Config)
    ensures var script := DropScript(Dropped(c, rs)) + ChunksScript(c.topic, Chunk(Kept(c, rs), 1000));
            && ScriptMessages(cid, script) == ChunkMessages(cid, c.topic, Chunk(Kept(c, rs), 1000))
            && (forall r :: r in rs ==> r.id in ScriptDeletes(script) && (ToDrop(c, r) || Handles(script, r)))
  {
    var kept, drop := Kept(c, rs), DropScript(Dropped(c, rs));
    var chunks := Chunk(kept, 1000);
    var rest := ChunksScript(c.topic, chunks);
    ScriptAppend(cid, drop, rest);
    LogsAppend(drop, rest);
    ChunksScriptMeans(cid, c.topic, chunks);
    KeptIsFilter(c, rs);
    ChunkPartitions(kept, 1000);
    forall r | r in rs ensures if ToDrop(c, r) then r.id in ScriptDeletes(drop) else Handles(rest, r) {
      if r in kept {
        InFlatten(chunks, r);
      } else {
        assert r in Dropped(c, rs) && r.id in Ids(Dropped(c, rs));
      }
    }
    assert [] + ChunkMessages(cid, c.topic, chunks) == ChunkMessages(cid, c.topic, chunks);
  }

  /** A whole script sends what is expected, deletes every row it was written for, and logs and marks those
      that no rule drops. */
  lemma PlatformScriptMeans(run: nat, rs: seq<Request>, configs: seq<Config>, platform: string)
    ensures var script := PlatformScript(OfPlatform(rs, platform), platform, configs);
            && ScriptMessages(Cid(run, platform), script) == ExpectedMessages(run, rs, configs, platform)
            && (forall r :: r in rs && r.fields.platform == platform ==>
                  r.id in ScriptDeletes(script) && (DroppedByRule(configs, r) || Handles(script, r)))
  {
    var mine, config := OfPlatform(rs, platform), FindConfig(configs, platform);
    PlatformIsFilter(rs, platform);
    DropsFound(mine, configs, platform);
    if config.Some? {
      ScriptHandlesKept(Cid(run, platform), mine, config.value);
    } else {
      forall r | r in mine ensures r.id in Ids(mine) {}
    }
  }

  /** A platform's script begins by deleting, in one call, the rows that the rules drop, if there are any. */
  lemma PlatformScriptDropsFirst(rs: seq<Request>, configs: seq<Config>, platform: string)
    requires forall r :: r in rs ==> r.fields.platform == platform
    requires exists r :: r in rs && DroppedByRule(configs, r)
    ensures var script := PlatformScript(rs, platform, configs);
            && script != [] && script[0].Delete?
            && (forall id :: id in script[0].ids <==> exists r :: r in rs && r.id == id && DroppedByRule(configs, r))
  {
    var config := FindConfig(configs, platform);
    DropsFound(rs, configs, platform);
    if config.Some? { KeptIsFilter(config.value, rs); }
  }

  /** Of a coroutine, the messages sent and those its script still sends are those expected; a row of its
      platform that its run fetched and that is still pending will be deleted by it, and one that no rule drops
      is or will be logged and marked. */
  ghost predicate Follows(s: State, cid: Cid)
    requires cid in s.todo && cid.run in s.seen
  {
    var read := s.seen[cid.run];
    && MessagesOf(s.db.sent, cid) + ScriptMessages(cid, s.todo[cid])
       == ExpectedMessages(cid.run, read.rows, read.configs, cid.platform)
    && forall r :: r in read.rows && r.fields.platform == cid.platform ==>
         && (r.id in s.db.pending ==> r.id in ScriptDeletes(s.todo[cid]))
         && (DroppedByRule(read.configs, r) || Moves(s.db, s.todo[cid], r))
  }

  ghost predicate Flow(s: State) {
    && (forall run :: run in s.seen ==> FetchedRows(s, s.seen[run].rows))
    && AllFollow(s)
  }

  ghost predicate AllFollow(s: State) { forall cid :: cid in s.todo ==> cid.run in s.seen && Follows(s, cid) }

  lemma MessagesGrow(sent: seq<Message>, m: Message, cid: Cid)
    ensures MessagesOf(sent + [m], cid) == MessagesOf(sent, cid) + (if m.cid == cid then [m] else [])
  {
    assert (sent + [m])[..|sent + [m]| - 1] == sent;
  }

  /** A call moves its message from what the script will send to what was sent. */
  lemma OwnMessagesMove(news: seq<Message>, cid: Cid, script: Script)
    requires script != []
    ensures MessagesOf(After(news, cid, script[0]), cid) + ScriptMessages(cid, script[1..])
            == MessagesOf(news, cid) + ScriptMessages(cid, script)
  {
    var tail := ScriptMessages(cid, script[1..]);
    if script[0].Send? {
      var m := Message(cid, script[0].topic, script[0].body);
      MessagesGrow(news, m, cid);
      assert (MessagesOf(news, cid) + [m]) + tail == MessagesOf(news, cid) + ([m] + tail);
    } else {
      assert [] + tail == tail;
    }
  }

  lemma OtherMessagesStay(news: seq<Message>, cid: Cid, call: Call, c: Cid)
    requires c != cid
    ensures MessagesOf(After(news, cid, call), c) == MessagesOf(news, c)
  {
    if call.Send? {
      MessagesGrow(news, Message(cid, call.topic, call.body), c);
      assert MessagesOf(news, c) + [] == MessagesOf(news, c);
    }
  }

  /** The messages sent after one more call. */
  function After(news: seq<Message>, cid: Cid, call: Call): seq<Message> {
    if call.Send? then news + [Message(cid, call.topic, call.body)] else news
  }

  lemma CallDeletes(db: Db, cid: Cid, script: Script, r: Request)
    requires script != []
    ensures r.id in Apply(db, cid, script[0]).pending ==>
              r.id in db.pending && (r.id in ScriptDeletes(script) ==> r.id in ScriptDeletes(script[1..]))
    ensures Moves(db, script, r) ==> Moves(Apply(db, cid, script[0]), script[1..], r)
  {
  }

  lemma {:induction false} NoMessages(sent: seq<Message>, cid: Cid)
    requires forall m :: m in sent ==> m.cid != cid
    ensures MessagesOf(sent, cid) == []
  {
    if sent != [] { NoMessages(sent[..|sent| - 1], cid); }
  }

  lemma NothingSentBefore(s: State, cid: Cid)
    requires DbOk(s) && cid.run !in s.seen
    ensures MessagesOf(s.db.sent, cid) == []
  {
    forall m | m in s.db.sent ensures m.cid != cid {
      var i :| 0 <= i < |s.db.sent| && s.db.sent[i] == m;
      assert SentWell(s, m);
    }
    NoMessages(s.db.sent, cid);
  }

  /** A whole script to make, nothing sent. */
  lemma WholeScriptFollows(s: State, cid: Cid)
    requires cid in s.todo && cid.run in s.seen && MessagesOf(s.db.sent, cid) == []
    requires var read := s.seen[cid.run];
             s.todo[cid] == PlatformScript(OfPlatform(read.rows, cid.platform), cid.platform, read.configs)
    ensures Follows(s, cid)
  {
    var read := s.seen[cid.run];
    PlatformScriptMeans(cid.run, read.rows, read.configs, cid.platform);
    assert [] + ScriptMessages(cid, s.todo[cid]) == ScriptMessages(cid, s.todo[cid]);
  }

  lemma StartedFollows(s: State, s': State, run: nat, configs: seq<Config>, cid: Cid)
    requires DbOk(s) && LoadingOk(s) && Start(s, s', run, configs) && cid in Scripts(run, s.loading[run], configs)
    ensures cid in s'.todo && cid.run in s'.seen && Follows(s', cid)
  {
    assert run !in s.seen && cid.run == run;
    NothingSentBefore(s, cid);
    WholeScriptFollows(s', cid);
  }

  lemma StartFollows(s: State, s': State, run: nat, configs: seq<Config>)
    requires DbOk(s) && LoadingOk(s) && AllFollow(s) && Start(s, s', run, configs)
    ensures AllFollow(s')
  {
    forall cid | cid in s'.todo ensures cid.run in s'.seen && Follows(s', cid) {
      if cid in Scripts(run, s.loading[run], configs) {
        StartedFollows(s, s', run, configs, cid);
      } else {
        assert Follows(s, cid) && cid.run != run;
      }
    }
  }

  lemma StartFlows(s: State, s': State, run: nat, configs: seq<Config>)
    requires Inv(s) && Flow(s) && Start(s, s', run, configs)
    ensures Flow(s')
  {
    StartFollows(s, s', run, configs);
    forall r | r in s'.seen ensures FetchedRows(s', s'.seen[r].rows) {
      assert if r == run then FetchedRows(s, s.loading[run]) else FetchedRows(s, s.seen[r].rows);
    }
  }

  /** A call takes its message off what its own script will send, and its deletions off what it will delete. */
  lemma OwnCallFollows(s: State, s': State, cid: Cid)
    requires Flow(s) && MakeCall(s, s', cid)
    ensures cid in s'.todo && cid.run in s'.seen && Follows(s', cid)
  {
    var script := s.todo[cid];
    assert Follows(s, cid);
    OwnMessagesMove(s.db.sent, cid, script);
    assert s'.db.sent == After(s.db.sent, cid, script[0]);
    forall r | r in s.seen[cid.run].rows && r.fields.platform == cid.platform
      ensures r.id in s'.db.pending ==> r.id in ScriptDeletes(s'.todo[cid])
      ensures DroppedByRule(s.seen[cid.run].configs, r) || Moves(s'.db, s'.todo[cid], r)
    {
      CallDeletes(s.db, cid, script, r);
    }
  }

  lemma StillFollows(s: State, s': State, c: Cid)
    requires c in s.todo && c.run in s.seen && Follows(s, c) && s'.seen == s.seen && c in s'.todo
             && s'.todo[c] == s.todo[c]
    requires MessagesOf(s'.db.sent, c) == MessagesOf(s.db.sent, c) && s'.db.pending.Keys <= s.db.pending.Keys
    requires s.db.log <= s'.db.log && s.db.synced <= s'.db.synced
    ensures Follows(s', c)
  {
  }

  /** The call of another coroutine sends nothing for this one, and makes no row pending. */
  lemma OtherCallFollows(s: State, s': State, cid: Cid, c: Cid)
    requires Flow(s) && Calls(s, s', cid) && c in s'.todo && c != cid
    ensures c.run in s'.seen && Follows(s', c)
  {
    OtherMessagesStay(s.db.sent, cid, s.todo[cid][0], c);
    CallEffect(s, s', cid);
    StillFollows(s, s', c);
  }

  lemma CallEffect(s: State, s': State, cid: Cid)
    requires Calls(s, s', cid)
    ensures s'.db.sent == s.db.sent || s'.db.sent == After(s.db.sent, cid, s.todo[cid][0])
    ensures s'.db.pending.Keys <= s.db.pending.Keys && s'.seen == s.seen && s'.ever == s.ever
    ensures s.db.log <= s'.db.log && s.db.synced <= s'.db.synced
    ensures forall c :: c in s'.todo && c != cid ==> c in s.todo && s'.todo[c] == s.todo[c]
  {
  }

  lemma CallFollows(s: State, s': State, cid: Cid)
    requires Flow(s) && Calls(s, s', cid)
    ensures AllFollow(s')
  {
    forall c | c in s'.todo ensures c.run in s'.seen && Follows(s', c) {
      if c != cid {
        OtherCallFollows(s, s', cid, c);
      } else {
        OwnCallFollows(s, s', cid);
      }
    }
  }

  lemma CallFlows(s: State, s': State, cid: Cid)
    requires Flow(s) && Calls(s, s', cid)
    ensures Flow(s')
  {
    CallFollows(s, s', cid);
    CallEffect(s, s', cid);
    forall run | run in s'.seen ensures FetchedRows(s', s'.seen[run].rows) {
      assert FetchedRows(s, s.seen[run].rows);
    }
  }

  lemma InsertFlows(s: State, s': State, r: Request)
    requires Flow(s) && Insert(s, s', r)
    ensures Flow(s')
  {
    forall cid | cid in s'.todo ensures cid.run in s'.seen && Follows(s', cid) { assert Follows(s, cid); }
  }

  lemma SameFlows(s: State, s': State)
    requires Flow(s) && s'.db == s.db && s'.ever == s.ever && s'.seen == s.seen
    requires forall cid :: cid in s'.todo ==> cid in s.todo && s'.todo[cid] == s.todo[cid]
    ensures Flow(s')
  {
    forall cid | cid in s'.todo ensures cid.run in s'.seen && Follows(s', cid) { assert Follows(s, cid); }
  }

  lemma NextFlows(s: State, s': State)
    requires Inv(s) && Flow(s) && Next(s, s')
    ensures Flow(s')
  {
    if r: Request :| Insert(s, s', r) {
      InsertFlows(s, s', r);
    } else if run: nat, rs: seq<Request> :| Fetch(s, s', run, rs) {
      SameFlows(s, s');
    } else if run: nat, configs: seq<Config> :| Start(s, s', run, configs) {
      StartFlows(s, s', run, configs);
    } else if cid: Cid :| MakeCall(s, s', cid) {
      CallFlows(s, s', cid);
    } else if cid: Cid :| Fail(s, s', cid) {
      CallFlows(s, s', cid);
    } else {
      SameFlows(s, s');
    }
  }

  lemma {:induction false} FlowAlways(b: seq<State>, k: nat)
    requires Behaviour(b) && k < |b|
    ensures Flow(b[k])
  {
    if k > 0 {
      FlowAlways(b, k - 1);
      InvAlways(b, k - 1);
      assert StepAt(b, k);
      NextFlows(b[k - 1], b[k]);
    }
  }

  /** The coroutine's run has started, and the coroutine is not there any more. */
  predicate Gone(s: State, cid: Cid) { cid.run in s.seen && cid !in s.todo }

  lemma GoneNext(s: State, s': State, cid: Cid)
    requires LoadingOk(s) && Next(s, s') && Gone(s, cid)
    ensures Gone(s', cid)
  {
    if run: nat, configs: seq<Config> :| Start(s, s', run, configs) {
      assert cid !in Scripts(run, s.loading[run], configs);
    } else if cid': Cid :| Calls(s, s', cid') {
      CallEffect(s, s', cid');
    }
  }

  lemma GoneStep(b: seq<State>, k: nat, cid: Cid)
    requires Behaviour(b) && 0 < k < |b| && Gone(b[k - 1], cid)
    ensures Gone(b[k], cid)
  {
    InvAlways(b, k - 1);
    assert StepAt(b, k);
    GoneNext(b[k - 1], b[k], cid);
  }

  /** A coroutine that failed or died never comes back; so one that is there with no call left met no error. */
  lemma {:induction false} GoneForGood(b: seq<State>, j: nat, k: nat, cid: Cid)
    requires Behaviour(b) && j <= k < |b| && Gone(b[j], cid)
    ensures Gone(b[k], cid)
    decreases k
  {
    if j < k {
      GoneForGood(b, j, k - 1, cid);
      GoneStep(b, k, cid);
    }
  }

  /** The run has started, and each of its coroutines is there with no call left. */
  predicate MetNoError(s: State, run: nat) {
    run in s.seen && forall p :: p in Platforms(s.seen[run].rows) ==> Cid(run, p) in s.todo && s.todo[Cid(run, p)] == []
  }

  /** A run that meets no error, whatever other runs do or fail to do meanwhile, sends each platform exactly
      its kept rows, once and in ascending id order, in messages of 1 to 1000 rows to the platform's
      topic, logs those rows and marks their parcels; it sends nothing else and leaves none of its fetched
      rows pending. */
  lemma CleanRunSendsOnce(b: seq<State>, k: nat, run: nat)
    requires Behaviour(b) && k < |b| && MetNoError(b[k], run)
    ensures var s, read := b[k], b[k].seen[run];
            && Ascending(read.rows) && 1 <= |read.rows| <= 50000
            && (forall p :: p in Platforms(read.rows) ==>
                  MessagesOf(s.db.sent, Cid(run, p)) == ExpectedMessages(run, read.rows, read.configs, p))
            && (forall m :: m in s.db.sent && m.cid.run == run ==> m.cid.platform in Platforms(read.rows))
            && (forall r :: r in read.rows ==> r.id !in s.db.pending)
            && (forall r :: r in read.rows && !DroppedByRule(read.configs, r) ==>
                  Logged(s.db, r) && r.fields.trackingNumber in s.db.synced)
  {
    var s, read := b[k], b[k].seen[run];
    InvAlways(b, k);
    FlowAlways(b, k);
    forall p | p in Platforms(read.rows)
      ensures MessagesOf(s.db.sent, Cid(run, p)) == ExpectedMessages(run, read.rows, read.configs, p)
    {
      assert Follows(s, Cid(run, p));
      assert MessagesOf(s.db.sent, Cid(run, p)) + [] == MessagesOf(s.db.sent, Cid(run, p));
    }
    forall m | m in s.db.sent && m.cid.run == run ensures m.cid.platform in Platforms(read.rows) {
      var i :| 0 <= i < |s.db.sent| && s.db.sent[i] == m;
      assert SentWell(s, m) && m.body[0] in m.body;
    }
    forall r | r in read.rows
      ensures r.id !in s.db.pending
      ensures DroppedByRule(read.configs, r) || (Logged(s.db, r) && r.fields.trackingNumber in s.db.synced)
    {
      assert r.fields.platform in Platforms(read.rows) && Follows(s, Cid(run, r.fields.platform));
    }
  }

  function Bodies(ms: seq<Message>): seq<seq<Request>> { if ms == [] then [] else [ms[0].body] + Bodies(ms[1..]) }

  lemma {:induction false} ChunkMessageBodies(cid: Cid, topic: string, chunks: seq<seq<Request>>)
    ensures Bodies(ChunkMessages(cid, topic, chunks)) == chunks
    ensures forall m :: m in ChunkMessages(cid, topic, chunks) ==> m.cid == cid && m.topic == topic && m.body in chunks
    decreases chunks
  {
    if chunks != [] { ChunkMessageBodies(cid, topic, chunks[1..]); }
  }

  /** The expected messages of a platform, laid end to end, are its fetched rows that no rule drops. */
  lemma ExpectedMessagesAreKeptRows(run: nat, rs: seq<Request>, configs: seq<Config>, p: string)
    requires Ascending(rs)
    ensures var ms, rows := ExpectedMessages(run, rs, configs, p),
            Flatten(Bodies(ExpectedMessages(run, rs, configs, p)));
            && Ascending(rows)
            && (forall r :: r in rows <==> r in rs && r.fields.platform == p && !DroppedByRule(configs, r))
            && (forall m :: m in ms ==> m.cid == Cid(run, p) && Topic(configs, p, m.topic) && 1 <= |m.body| <= 1000)
  {
    PlatformIsFilter(rs, p);
    DropsFound(OfPlatform(rs, p), configs, p);
    var config := FindConfig(configs, p);
    if config.Some? {
      TopicFound(configs, p, config.value);
      var c, kept := config.value, Kept(config.value, OfPlatform(rs, p));
      KeptIsFilter(c, OfPlatform(rs, p));
      ChunkPartitions(kept, 1000);
      ChunkMessageBodies(Cid(run, p), c.topic, Chunk(kept, 1000));
    }
  }
}
