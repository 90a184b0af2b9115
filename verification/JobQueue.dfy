/** The job service of `internal/jobs/jobs.go`: its tables are fields, a
    transaction is one method call, `now` is the transaction's clock and
    `locked` the rows other transactions hold (SKIP LOCKED). */
module JobQueue {
  import opened Prelude
  import opened JobRows

  datatype Role = DeviceAgent | TvosAgent | RefreshAgent | SigningWorker | DeviceService

  datatype ClaimRequest = ClaimRequest(devices: set<DeviceId>, types: set<JobType>, limit: int)

  /** An agents row: its role, and whether its name is "signing-worker". */
  datatype AgentRow = AgentRow(role: Role, namedSigningWorker: bool)

  /** The agents table and, of the devices table, who owns each device. */
  datatype Fleet = Fleet(agents: map<AgentId, AgentRow>, owners: map<DeviceId, Option<AgentId>>)

  function NormalLimit(limit: int): (n: nat)
    ensures 1 <= n <= 100
  {
    if limit <= 0 || limit > 100 then 10 else limit
  }

  predicate GlobalTypes(types: set<JobType>) { types <= {Sign, ExportP12, AppIDs} }

  predicate GlobalAgent(fleet: Fleet, agent: AgentId) {
    agent == NIL_AGENT
    || (agent in fleet.agents && (fleet.agents[agent].role == DeviceService
        || fleet.agents[agent].role == SigningWorker))
  }

  /** May this caller take jobs of any device? */
  predicate Unrestricted(fleet: Fleet, agent: AgentId, req: ClaimRequest) {
    GlobalAgent(fleet, agent) || (req.types != {} && GlobalTypes(req.types))
  }

  /** A row the per-device (or device-less) query may return. */
  predicate Takable(jobs: map<JobId, Job>, locked: set<JobId>, id: JobId, types: set<JobType>, now: Time) {
    && id in jobs && id !in locked
    && jobs[id].state == Pending && Due(jobs[id], now)
    && (if types == {} then jobs[id].jobType != Sign else jobs[id].jobType in types)
  }

  predicate MayUseDevice(fleet: Fleet, agent: AgentId, req: ClaimRequest, d: DeviceId) {
    && d in fleet.owners
    && (req.devices == {} || d in req.devices)
    && (Unrestricted(fleet, agent, req) || fleet.owners[d] == Some(agent))
  }

  predicate MayTakeDeviceless(fleet: Fleet, agent: AgentId, req: ClaimRequest) {
    req.types != {} && req.devices == {} && Unrestricted(fleet, agent, req)
  }

  /** Each id was on offer to this caller, and was the earliest row its device
      (or no device) had to offer. */
  ghost predicate Proper(jobs: map<JobId, Job>, fleet: Fleet, agent: AgentId, req: ClaimRequest,
                         locked: set<JobId>, now: Time, id: JobId)
  {
    && Takable(jobs, locked, id, req.types, now)
    && (match jobs[id].device
        case None => MayTakeDeviceless(fleet, agent, req)
        case Some(d) => MayUseDevice(fleet, agent, req, d))
    && (forall other :: Takable(jobs, locked, other, req.types, now) ==>
          jobs[other].device == jobs[id].device ==> id <= other)
  }

  /** The device-less job comes first, then devices in increasing order: so at
      most one job per device and at most one device-less. */
  ghost predicate DevicesAscend(jobs: map<JobId, Job>, claimed: seq<JobId>)
    requires forall id :: id in claimed ==> id in jobs
  {
    forall i, j :: 0 <= i < j < |claimed| ==>
      && jobs[claimed[j]].device.Some?
      && (jobs[claimed[i]].device.Some? ==> jobs[claimed[i]].device.value < jobs[claimed[j]].device.value)
  }

  ghost predicate Served(jobs: map<JobId, Job>, claimed: seq<JobId>, device: Option<DeviceId>)
    requires forall id :: id in claimed ==> id in jobs
  {
    exists id :: id in claimed && jobs[id].device == device
  }

  /** The limit was used up on devices before `d`. */
  ghost predicate CutOff(jobs: map<JobId, Job>, claimed: seq<JobId>, limit: nat, d: DeviceId)
    requires forall id :: id in claimed ==> id in jobs
  {
    |claimed| == limit
    && forall id :: id in claimed ==> jobs[id].device.None? || jobs[id].device.value < d
  }

  /** Claim's promise about the ids it hands out, read off the table before it. */
  ghost predicate ClaimAnswers(jobs: map<JobId, Job>, fleet: Fleet, agent: AgentId, req: ClaimRequest,
                               locked: set<JobId>, now: Time, claimed: seq<JobId>)
  {
    && |claimed| <= NormalLimit(req.limit)
    && (forall id :: id in claimed ==> Proper(jobs, fleet, agent, req, locked, now, id))
    && DevicesAscend(jobs, claimed)
    // nothing on offer is passed over unless the limit was reached first
    && (forall id :: Takable(jobs, locked, id, req.types, now) ==>
          match jobs[id].device
          case None => MayTakeDeviceless(fleet, agent, req) ==> Served(jobs, claimed, None)
          case Some(d) => MayUseDevice(fleet, agent, req, d) ==>
            Served(jobs, claimed, Some(d)) || CutOff(jobs, claimed, NormalLimit(req.limit), d))
  }

  /** A claim in the making: `claimed` answers for every device in `done`, and
      for the device-less rows if the caller may take those. */
  ghost predicate Progress(jobs: map<JobId, Job>, fleet: Fleet, agent: AgentId, req: ClaimRequest,
                           locked: set<JobId>, now: Time, claimed: seq<JobId>, done: set<DeviceId>)
  {
    && (forall id :: id in claimed ==> Proper(jobs, fleet, agent, req, locked, now, id))
    && DevicesAscend(jobs, claimed)
    && (forall id :: id in claimed ==> jobs[id].device.None? || jobs[id].device.value in done)
    && (forall id :: Takable(jobs, locked, id, req.types, now) ==>
          match jobs[id].device
          case None => MayTakeDeviceless(fleet, agent, req) ==> Served(jobs, claimed, None)
          case Some(d) => d in done ==> Served(jobs, claimed, Some(d)))
  }

  lemma TakableInTable(jobs: map<JobId, Job>, locked: set<JobId>, id: JobId, types: set<JobType>, now: Time)
    requires Takable(jobs, locked, id, types, now)
    ensures id in jobs
  {
  }

  lemma InTable(jobs: map<JobId, Job>, fleet: Fleet, agent: AgentId, req: ClaimRequest, locked: set<JobId>,
                now: Time, id: JobId)
    requires Proper(jobs, fleet, agent, req, locked, now, id)
    ensures id in jobs
  {
  }

  /** Serving one more device, later than all before it, with its earliest row. */
  lemma ProgressStep(jobs: map<JobId, Job>, fleet: Fleet, agent: AgentId, req: ClaimRequest,
                     locked: set<JobId>, now: Time, claimed: seq<JobId>, done: set<DeviceId>, d: DeviceId, id: JobId)
    requires Progress(jobs, fleet, agent, req, locked, now, claimed, done)
    requires forall e :: e in done ==> e < d
    requires Proper(jobs, fleet, agent, req, locked, now, id) && jobs[id].device == Some(d)
    ensures Progress(jobs, fleet, agent, req, locked, now, claimed + [id], done + {d})
  {
    hide MayUseDevice, MayTakeDeviceless, Takable, Proper, Served;
    var claimed' := claimed + [id];
    assert forall x :: x in claimed' <==> x in claimed || x == id;
    forall x | x in claimed' ensures Proper(jobs, fleet, agent, req, locked, now, x) && x in jobs {
      InTable(jobs, fleet, agent, req, locked, now, x);
    }
    AscendMore(jobs, claimed, d, id);
    forall x | Takable(jobs, locked, x, req.types, now)
      ensures x in jobs
    {
      TakableInTable(jobs, locked, x, req.types, now);
    }
    ServedGrows(jobs, claimed, id);
  }

  lemma AscendMore(jobs: map<JobId, Job>, claimed: seq<JobId>, d: DeviceId, id: JobId)
    requires forall x :: x in claimed + [id] ==> x in jobs
    requires forall x :: x in claimed ==> x in jobs && (jobs[x].device.None? || jobs[x].device.value < d)
    requires DevicesAscend(jobs, claimed) && jobs[id].device == Some(d)
    ensures DevicesAscend(jobs, claimed + [id])
  {
    var claimed' := claimed + [id];
    forall i, j | 0 <= i < j < |claimed'|
      ensures jobs[claimed'[j]].device.Some?
      ensures jobs[claimed'[i]].device.Some? ==> jobs[claimed'[i]].device.value < jobs[claimed'[j]].device.value
    {
      assert claimed'[i] == claimed[i] && claimed[i] in claimed;
      if j < |claimed| { assert claimed'[j] == claimed[j]; }
    }
  }

  lemma ServedGrows(jobs: map<JobId, Job>, claimed: seq<JobId>, id: JobId)
    requires forall x :: x in claimed + [id] ==> x in jobs
    requires forall x :: x in claimed ==> x in jobs
    ensures forall dev :: Served(jobs, claimed, dev) ==> Served(jobs, claimed + [id], dev)
    ensures id in jobs && Served(jobs, claimed + [id], jobs[id].device)
  {
    assert id in claimed + [id];
    forall dev | Served(jobs, claimed, dev) ensures Served(jobs, claimed + [id], dev) {
      var w :| w in claimed && jobs[w].device == dev;
      assert w in claimed + [id];
    }
  }

  lemma GrantOneMore(db: JobRows.Db, ids: set<JobId>, id: JobId, agent: AgentId, now: Time, cfg: Config)
    requires id in db.jobs && id !in ids
    ensures var after := GrantAll(db, ids, agent, now, cfg).jobs;
            after[id := Grant(after[id], agent, now, cfg)] == GrantAll(db, ids + {id}, agent, now, cfg).jobs
  {
  }

  /** Rows already granted are no longer on offer; all others still are. */
  lemma StillOnOffer(db: JobRows.Db, ids: set<JobId>, agent: AgentId, grantedAt: Time, cfg: Config,
                     locked: set<JobId>, types: set<JobType>, now: Time, id: JobId)
    ensures var after := GrantAll(db, ids, agent, grantedAt, cfg).jobs;
            && (Takable(after, locked, id, types, now) <==> Takable(db.jobs, locked, id, types, now) && id !in ids)
            && (id in db.jobs ==> after[id].device == db.jobs[id].device)
  {
  }

  /** The earliest row left for a device none of whose rows was granted is the
      earliest it had to begin with. */
  lemma EarliestIsProper(db: JobRows.Db, fleet: Fleet, agent: AgentId, req: ClaimRequest, cfg: Config,
                         locked: set<JobId>, now: Time, claimed: seq<JobId>, d: DeviceId, id: JobId)
    requires forall x :: x in claimed ==> x in db.jobs && db.jobs[x].device != Some(d)
    requires MayUseDevice(fleet, agent, req, d)
    requires var after := GrantAll(db, Elements(claimed), agent, now, cfg).jobs;
             && Takable(after, locked, id, req.types, now) && after[id].device == Some(d)
             && (forall x :: Takable(after, locked, x, req.types, now) ==> after[x].device == Some(d) ==> id <= x)
    ensures Proper(db.jobs, fleet, agent, req, locked, now, id) && db.jobs[id].device == Some(d)
  {
    StillOnOffer(db, Elements(claimed), agent, now, cfg, locked, req.types, now, id);
    forall x | Takable(db.jobs, locked, x, req.types, now) && db.jobs[x].device == Some(d) ensures id <= x {
      StillOnOffer(db, Elements(claimed), agent, now, cfg, locked, req.types, now, x);
    }
  }

  /** A device with nothing left to offer, and none of whose rows was granted,
      had nothing to offer. */
  lemma NothingOnOffer(db: JobRows.Db, fleet: Fleet, agent: AgentId, req: ClaimRequest, cfg: Config,
                       locked: set<JobId>, now: Time, claimed: seq<JobId>, done: set<DeviceId>, d: DeviceId)
    requires Progress(db.jobs, fleet, agent, req, locked, now, claimed, done)
    requires d !in done
    requires var after := GrantAll(db, Elements(claimed), agent, now, cfg).jobs;
             forall x :: Takable(after, locked, x, req.types, now) ==> after[x].device != Some(d)
    ensures Progress(db.jobs, fleet, agent, req, locked, now, claimed, done + {d})
  {
    forall x | Takable(db.jobs, locked, x, req.types, now) ensures db.jobs[x].device != Some(d) {
      StillOnOffer(db, Elements(claimed), agent, now, cfg, locked, req.types, now, x);
    }
  }

  /** Progress over every device the caller may use, or up to the limit, answers the claim. */
  lemma ProgressAnswers(jobs: map<JobId, Job>, fleet: Fleet, agent: AgentId, req: ClaimRequest,
                        locked: set<JobId>, now: Time, claimed: seq<JobId>, devices: seq<DeviceId>, i: nat)
    requires i <= |devices| && StrictlyAscending(devices)
    requires Progress(jobs, fleet, agent, req, locked, now, claimed, Elements(devices[..i]))
    requires forall id :: Takable(jobs, locked, id, req.types, now) ==>
      jobs[id].device.Some? && MayUseDevice(fleet, agent, req, jobs[id].device.value) ==>
          jobs[id].device.value in devices
    requires |claimed| <= NormalLimit(req.limit)
    requires i == |devices| || |claimed| == NormalLimit(req.limit)
    ensures ClaimAnswers(jobs, fleet, agent, req, locked, now, claimed)
  {
    forall id | Takable(jobs, locked, id, req.types, now) && jobs[id].device.Some?
                && MayUseDevice(fleet, agent, req, jobs[id].device.value)
      ensures Served(jobs, claimed, jobs[id].device)
           || CutOff(jobs, claimed, NormalLimit(req.limit), jobs[id].device.value)
    {
      var d := jobs[id].device.value;
      if d !in devices[..i] {
        assert devices == devices[..i] + devices[i..];
        var k :| 0 <= k < |devices| - i && devices[i..][k] == d;
        forall x | x in claimed && jobs[x].device.Some? ensures jobs[x].device.value < d {
          var h :| 0 <= h < i && devices[..i][h] == jobs[x].device.value;
          assert devices[h] < devices[i + k];
        }
      }
    }
  }

  // ------------------------------------ the promise leaves Claim no choice

  /** Of two answers that agree on their first k ids, what one hands out from
      there on lies on no device before the other's next one. */
  lemma NoEarlierDevice(jobs: map<JobId, Job>, fleet: Fleet, agent: AgentId, req: ClaimRequest,
                        locked: set<JobId>, now: Time, a: seq<JobId>, b: seq<JobId>, k: nat, j: nat)
    requires ClaimAnswers(jobs, fleet, agent, req, locked, now, a)
    requires ClaimAnswers(jobs, fleet, agent, req, locked, now, b)
    requires k < |a| && k <= j < |b| && forall m :: 0 <= m < k ==> a[m] == b[m]
    requires a[k] in jobs && jobs[a[k]].device.Some?
    ensures b[j] in jobs && jobs[b[j]].device.Some? && jobs[a[k]].device.value <= jobs[b[j]].device.value
  {
    hide MayUseDevice, Due;
    assert Proper(jobs, fleet, agent, req, locked, now, b[j]);
    if Served(jobs, a, jobs[b[j]].device) {
      var id :| id in a && jobs[id].device == jobs[b[j]].device;
      var m :| 0 <= m < |a| && a[m] == id;
      assert Proper(jobs, fleet, agent, req, locked, now, a[m]);
    }
  }

  lemma NextAgrees(jobs: map<JobId, Job>, fleet: Fleet, agent: AgentId, req: ClaimRequest,
                   locked: set<JobId>, now: Time, a: seq<JobId>, b: seq<JobId>, k: nat)
    requires ClaimAnswers(jobs, fleet, agent, req, locked, now, a)
    requires ClaimAnswers(jobs, fleet, agent, req, locked, now, b)
    requires k < |a| && k <= |b| && forall m :: 0 <= m < k ==> a[m] == b[m]
    ensures k < |b| && a[k] == b[k]
  {
    assert Proper(jobs, fleet, agent, req, locked, now, a[k]);
    var device := jobs[a[k]].device;
    if Served(jobs, b, device) {
      var id :| id in b && jobs[id].device == device;
      var m :| 0 <= m < |b| && b[m] == id;
      assert Proper(jobs, fleet, agent, req, locked, now, b[m]);
      if m > k && device.Some? {
        NoEarlierDevice(jobs, fleet, agent, req, locked, now, a, b, k, k);
      }
    } else {
      NoEarlierDevice(jobs, fleet, agent, req, locked, now, a, b, k, k);
    }
  }

  lemma {:induction false} Agreement(jobs: map<JobId, Job>, fleet: Fleet, agent: AgentId, req: ClaimRequest,
                                     locked: set<JobId>, now: Time, a: seq<JobId>, b: seq<JobId>, k: nat)
    requires ClaimAnswers(jobs, fleet, agent, req, locked, now, a)
    requires ClaimAnswers(jobs, fleet, agent, req, locked, now, b)
    requires k <= |a| && k <= |b| && forall m :: 0 <= m < k ==> a[m] == b[m]
    ensures a == b
    decreases |a| - k
  {
    if k < |a| {
      NextAgrees(jobs, fleet, agent, req, locked, now, a, b, k);
      Agreement(jobs, fleet, agent, req, locked, now, a, b, k + 1);
    } else if k < |b| {
      NextAgrees(jobs, fleet, agent, req, locked, now, b, a, k);
    }
  }

  /** ClaimAnswers fixes the whole answer, ids and order: same table, same locks, same answer. */
  lemma ClaimDetermined(jobs: map<JobId, Job>, fleet: Fleet, agent: AgentId, req: ClaimRequest,
                        locked: set<JobId>, now: Time, a: seq<JobId>, b: seq<JobId>)
    requires ClaimAnswers(jobs, fleet, agent, req, locked, now, a)
    requires ClaimAnswers(jobs, fleet, agent, req, locked, now, b)
    ensures a == b
  {
    Agreement(jobs, fleet, agent, req, locked, now, a, b, 0);
  }

  class Service {
    const cfg: Config
    var jobs: map<JobId, Job>
    var keys: map<Key, JobId>
    var nextId: JobId
    var deployments: map<DeploymentId, Deployment>
    var records: map<DeploymentId, Installation>

    constructor (cfg: Config)
      ensures this.cfg == cfg && Db() == JobRows.Db(map[], map[], 0, map[], map[])
    {
      this.cfg := cfg;
      jobs, keys, nextId, deployments, records := map[], map[], 0, map[], map[];
    }

    function Db(): JobRows.Db
      reads this
    {
      JobRows.Db(jobs, keys, nextId, deployments, records)
    }

    /** INSERT ... ON CONFLICT (idempotency_key) DO NOTHING, then the re-read. */
    method InsertOrFind(row: Job) returns (id: JobId)
      modifies this`jobs, this`keys, this`nextId
      ensures (Db(), id) == Insert(old(Db()), row)
    {
      if row.key in keys {
        id := keys[row.key];
      } else {
        id := nextId;
        jobs := jobs[id := row];
        keys := keys[row.key := id];
        nextId := nextId + 1;
      }
    }

    method Create(jobType: JobType, device: Option<DeviceId>, params: Params, key: Key,
                  retryAt: Option<Time>, parent: Option<JobId>)
      returns (r: Result<JobId, Error>)
      modifies this`jobs, this`keys, this`nextId
      ensures jobType == OtherType("") ==> r == Err(MissingType) && Db() == old(Db())
      ensures jobType != OtherType("") && key == PlainKey("") ==> r == Err(MissingKey) && Db() == old(Db())
      ensures jobType != OtherType("") && key != PlainKey("") ==>
        r.Ok? && (Db(), r.value)
              == Insert(old(Db()), NewRow(jobType, device, params, key, retryAt, DEFAULT_MAX_ATTEMPTS, parent))
    {
      if jobType == OtherType("") { return Err(MissingType); }
      if key == PlainKey("") { return Err(MissingKey); }
      var id := InsertOrFind(NewRow(jobType, device, params, key, retryAt, DEFAULT_MAX_ATTEMPTS, parent));
      return Ok(id);
    }

    method CreateRefresh(device: Option<DeviceId>, params: Params, key: Key, maxAttempts: int)
      returns (r: Result<JobId, Error>)
      modifies this`jobs, this`keys, this`nextId
      ensures device.None? ==> r == Err(MissingDevice) && Db() == old(Db())
      ensures device.Some? ==>
        r.Ok? && (Db(), r.value) == Insert(old(Db()), NewRow(Refresh, device, params, key, None, maxAttempts, None))
    {
      if device.None? { return Err(MissingDevice); }
      var id := InsertOrFind(NewRow(Refresh, device, params, key, None, maxAttempts, None));
      return Ok(id);
    }

    /** The statements of ClaimSpecific with nothing in between. */
    method ClaimSpecific(agent: AgentId, id: JobId, now: Time) returns (r: Result<Job, Error>)
      modifies this`jobs
      ensures (Db(), r) == ClaimOne(old(Db()), agent, id, now, cfg)
    {
      if id !in jobs { return Err(NotFound); }
      match jobs[id].state {
        case Completed => return Ok(jobs[id]);
        case Claimed | InProgress =>
          if jobs[id].claimedBy == Some(agent) { return Ok(jobs[id]); }
          return Err(AlreadyActive);
        case Failed | Dead =>
          jobs := jobs[id := jobs[id].(state := Pending, claimedBy := None, lease := None, retryAt := None)];
        case Pending =>
      }
      jobs := jobs[id := Grant(jobs[id], agent, now, cfg)];
      assert jobs == old(jobs)[id := Grant(old(jobs[id]), agent, now, cfg)];
      return Ok(jobs[id]);
    }

    /** ORDER BY created_at, id LIMIT 1 FOR UPDATE SKIP LOCKED. */
    method Earliest(device: Option<DeviceId>, types: set<JobType>, locked: set<JobId>, now: Time)
      returns (found: Option<JobId>)
      ensures found.Some? ==> Takable(jobs, locked, found.value, types, now) && jobs[found.value].device == device
      ensures found.Some? ==>
        forall id :: Takable(jobs, locked, id, types, now) ==> jobs[id].device == device ==> found.value <= id
      ensures found.None? ==> forall id :: Takable(jobs, locked, id, types, now) ==> jobs[id].device != device
    {
      var matching := set id | id in jobs && Takable(jobs, locked, id, types, now) && jobs[id].device == device;
      if matching == {} {
        forall id | Takable(jobs, locked, id, types, now) ensures jobs[id].device != device {
          assert id !in matching;
        }
        return None;
      }
      found := Some(Least(matching));
      forall id | Takable(jobs, locked, id, types, now) && jobs[id].device == device ensures found.value <= id {
        assert id in matching;
      }
    }

    /** The devices rows a claim locks, ORDER BY id. */
    method DevicesInScope(fleet: Fleet, agent: AgentId, req: ClaimRequest, now: Time) returns (devices: seq<DeviceId>)
      ensures StrictlyAscending(devices)
      ensures forall d :: d in devices ==> MayUseDevice(fleet, agent, req, d)
      ensures forall id, locked :: Takable(jobs, locked, id, req.types, now) ==>
        jobs[id].device.Some? && MayUseDevice(fleet, agent, req, jobs[id].device.value) ==>
        jobs[id].device.value in devices
    {
      var scope := set d | d in fleet.owners && MayUseDevice(fleet, agent, req, d);
      if req.types != {} {
        var candidates := set id | id in jobs && Takable(jobs, {}, id, req.types, now) && jobs[id].device.Some?
                            :: jobs[id].device.value;
        forall id, locked | Takable(jobs, locked, id, req.types, now) && jobs[id].device.Some?
          ensures jobs[id].device.value in candidates
        {
          assert Takable(jobs, {}, id, req.types, now);
        }
        scope := scope * candidates;
      }
      devices := Ascending(scope);
    }

    /** The device-less branch of Claim. */
    method TakeDeviceless(fleet: Fleet, agent: AgentId, req: ClaimRequest, locked: set<JobId>, now: Time)
      returns (claimed: seq<JobId>)
      modifies this`jobs
      ensures |claimed| <= 1 && jobs == GrantAll(old(Db()), Elements(claimed), agent, now, cfg).jobs
      ensures Progress(old(jobs), fleet, agent, req, locked, now, claimed, {})
    {
      claimed := [];
      assert jobs == GrantAll(Db(), Elements(claimed), agent, now, cfg).jobs;
      if req.types != {} && req.devices == {} && (GlobalAgent(fleet, agent) || GlobalTypes(req.types)) {
        var job := Earliest(None, req.types, locked, now);
        if job.Some? {
          jobs := jobs[job.value := Grant(jobs[job.value], agent, now, cfg)];
          claimed := [job.value];
          assert Served(old(jobs), claimed, None) by { assert job.value in claimed; }
        }
      }
    }

    /** One turn of Claim's loop over the devices it locked. */
    method TakeFrom(d: DeviceId, agent: AgentId, req: ClaimRequest, locked: set<JobId>, now: Time, claimed: seq<JobId>,
                    ghost fleet: Fleet, ghost before: JobRows.Db, ghost done: set<DeviceId>)
      returns (claimed': seq<JobId>)
      requires jobs == GrantAll(before, Elements(claimed), agent, now, cfg).jobs
      requires Progress(before.jobs, fleet, agent, req, locked, now, claimed, done)
      requires MayUseDevice(fleet, agent, req, d) && forall e :: e in done ==> e < d
      modifies this`jobs
      ensures |claimed| <= |claimed'| <= |claimed| + 1
      ensures jobs == GrantAll(before, Elements(claimed'), agent, now, cfg).jobs
      ensures Progress(before.jobs, fleet, agent, req, locked, now, claimed', done + {d})
    {
      var job := Earliest(Some(d), req.types, locked, now);
      if job.None? {
        NothingOnOffer(before, fleet, agent, req, cfg, locked, now, claimed, done, d);
        return claimed;
      }
      EarliestIsProper(before, fleet, agent, req, cfg, locked, now, claimed, d, job.value);
      ProgressStep(before.jobs, fleet, agent, req, locked, now, claimed, done, d, job.value);
      jobs := jobs[job.value := Grant(jobs[job.value], agent, now, cfg)];
      claimed' := claimed + [job.value];
      GrantOneMore(before, Elements(claimed), job.value, agent, now, cfg);
      assert Elements(claimed') == Elements(claimed) + {job.value};
    }

    method Claim(fleet: Fleet, agent: AgentId, req: ClaimRequest, locked: set<JobId>, now: Time)
      returns (claimed: seq<JobId>)
      modifies this`jobs
      ensures ClaimAnswers(old(jobs), fleet, agent, req, locked, now, claimed)
      ensures Db() == GrantAll(old(Db()), Elements(claimed), agent, now, cfg)
    {
      ghost var before := Db();
      var limit := NormalLimit(req.limit);
      claimed := TakeDeviceless(fleet, agent, req, locked, now);
      var devices := DevicesInScope(fleet, agent, req, now);
      forall id | Takable(before.jobs, locked, id, req.types, now) && before.jobs[id].device.Some?
        ensures Takable(jobs, locked, id, req.types, now) && jobs[id].device == before.jobs[id].device
      {
        StillOnOffer(before, Elements(claimed), agent, now, cfg, locked, req.types, now, id);
      }
      var i := 0;
      assert Elements(devices[..0]) == {};
      while i < |devices| && |claimed| < limit
        invariant 0 <= i <= |devices| && |claimed| <= limit
        invariant jobs == GrantAll(before, Elements(claimed), agent, now, cfg).jobs
        invariant Progress(before.jobs, fleet, agent, req, locked, now, claimed, Elements(devices[..i]))
      {
        assert Elements(devices[..i + 1]) == Elements(devices[..i]) + {devices[i]};
        claimed := TakeFrom(devices[i], agent, req, locked, now, claimed, fleet, before, Elements(devices[..i]));
        i := i + 1;
      }
      ProgressAnswers(before.jobs, fleet, agent, req, locked, now, claimed, devices, i);
    }

    method Update(agent: AgentId, id: JobId, req: UpdateRequest, now: Time) returns (r: Result<Job, Error>)
      modifies this`jobs, this`deployments, this`records
      ensures Db() == Updated(old(Db()), agent, id, req, now, cfg)
      ensures match Refusal(old(Db()), agent, id, req)
              case Some(e) => r == Err(e)
              case None => id in jobs && r == Ok(jobs[id])
    {
      if id !in jobs { return Err(NotFound); }
      var current := jobs[id];
      if current.claimedBy != Some(agent) { return Err(NotClaimed); }
      if !ValidTransition(current.state, req.state) { return Err(InvalidTransition); }
      if req.state == Known(Completed) && (req.category.Some? || req.hasDetails) { return Err(DuplicateColumn); }
      jobs := jobs[id := Applied(current, req, now, cfg)];
      var failure := ApplyRefreshOutcome(jobs[id], req, now);
      if failure.Some? {
        jobs := jobs[id := current]; // rollback
        assert jobs == old(jobs);
        return Err(failure.value);
      }
      return Ok(jobs[id]);
    }

    method ApplyRefreshOutcome(job: Job, req: UpdateRequest, now: Time) returns (failure: Option<Error>)
      modifies this`deployments, this`records
      ensures match RefreshOutcomeWrites(old(Db()), job, req, now, cfg)
              case Ok(db) => failure == None && Db() == db
              case Err(e) => failure == Some(e) && Db() == old(Db())
    {
      if job.jobType != Refresh || (job.state != Completed && job.state != Failed) { return None; }
      if job.params.deployment.None? { return Some(MissingDeployment); }
      var d := job.params.deployment.value;
      if job.state == Completed {
        var newExpiry := now + PROFILE_VALIDITY;
        var signedId, installId := None, None;
        match req.result {
          case NoResult =>
          case Malformed => return Some(InvalidResult);
          case Reported(expiry, signed, install) =>
            if expiry.Some? { newExpiry := expiry.value; }
            signedId, installId := signed, install;
        }
        var nextDue := newExpiry - cfg.refreshLead;
        if d in deployments {
          deployments := deployments[d := deployments[d].(nextDue := Some(nextDue), outcome := RefreshOk)];
        }
        if signedId.Some? {
          var previous := if d in records then records[d].signed else None;
          if previous.Some? && previous.value != signedId.value && d in deployments {
            deployments := deployments[d := deployments[d].(rollback := previous)];
          }
          if d in records {
            records := records[d := Installation(Some(newExpiry), signedId, installId)];
          }
        } else if d in records {
          records := records[d := records[d].(expiry := Some(newExpiry))];
        }
        return None;
      }
      if d in deployments {
        deployments := deployments[d := deployments[d].(outcome := RefreshFailed)];
      }
      return None;
    }

    /** The reaper's SELECT ... FOR UPDATE SKIP LOCKED; every order will do. */
    method SelectExpired(locked: set<JobId>, now: Time) returns (expired: seq<JobId>)
      ensures forall id :: id in expired <==> id in jobs && id !in locked && Reapable(jobs[id], now)
      ensures forall i, j :: 0 <= i < j < |expired| ==> expired[i] != expired[j]
    {
      expired := Ascending(set id | id in jobs && id !in locked && Reapable(jobs[id], now));
    }

    method Reap(locked: set<JobId>, now: Time) returns (reaped: nat)
      modifies this`jobs
      ensures Db() == ReapAll(old(Db()), locked, now)
      ensures reaped == |set id | id in old(jobs) && id !in locked && Reapable(old(jobs)[id], now)|
    {
      hide MinBackoff, Reapable;
      var expired := SelectExpired(locked, now);
      var i := 0;
      while i < |expired|
        invariant 0 <= i <= |expired|
        invariant jobs.Keys == old(jobs).Keys
        invariant forall id :: id in jobs ==>
          jobs[id] == if id in expired[..i] then Reaped(old(jobs)[id], now) else old(jobs)[id]
      {
        var id := expired[i];
        assert id !in expired[..i];
        var j := jobs[id];
        if j.state == Failed && j.category.Some? && TerminalCategory(j.category.value) {
          jobs := jobs[id := Killed(j, TerminalError(j.category.value))];
        } else if j.attempt >= EffectiveMax(j) {
          jobs := jobs[id := Killed(j, MaxAttempts)];
        } else {
          var retryAfter := BACKOFF_SECONDS;
          if j.attempt > 1 { retryAfter := MinBackoff(j.attempt); }
          jobs := jobs[id := j.(state := Pending, claimedBy := None, lease := None, retryAt := Some(now + retryAfter))];
        }
        i := i + 1;
      }
      assert expired[..i] == expired;
      reaped := |expired|;
      DistinctLength(expired);
      assert Elements(expired) == set id | id in old(jobs) && id !in locked && Reapable(old(jobs)[id], now);
    }

    /** releaseDeadCycle: DELETE ... WHERE idempotency_key = key AND state = 'dead'. */
    method DeleteDead(key: Key)
      requires WellFormed(Db())
      modifies this`jobs, this`keys
      ensures Db() == Released(old(Db()), key)
    {
      if key in keys && jobs[keys[key]].state == Dead {
        var id := keys[key];
        jobs := map i | i in jobs && i != id ::
            if jobs[i].parent == Some(id) then jobs[i].(parent := None) else jobs[i];
        keys := map k | k in keys && k != key :: keys[k];
      }
    }

    /** awaitExportP12's purge: DELETE ... WHERE idempotency_key = key. */
    method Purge(key: Key)
      requires WellFormed(Db())
      modifies this`jobs, this`keys
      ensures Db() == Purged(old(Db()), key)
    {
      if key in keys {
        var id := keys[key];
        jobs := map i | i in jobs && i != id ::
            if jobs[i].parent == Some(id) then jobs[i].(parent := None) else jobs[i];
        keys := map k | k in keys && k != key :: keys[k];
      }
    }
  }
}
