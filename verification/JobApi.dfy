/** The claim policy of `internal/api/jobs.go`: which job types a role may ask
    the queue for. */
module JobApi {
  import opened Prelude
  import opened JobRows
  import opened JobQueue

  /** The types reserved for the signing worker. */
  const PRIVILEGED: set<JobType> := {Sign, ExportP12, AppIDs}

  function AllowedJobTypes(role: Role): (types: set<JobType>)
    ensures types != {}
    ensures role == SigningWorker ==> types == PRIVILEGED
    ensures role != SigningWorker ==> types !! PRIVILEGED
    ensures Refresh in types ==> role == RefreshAgent || role == DeviceService
  {
    match role
    case SigningWorker => {Sign, ExportP12, AppIDs}
    case RefreshAgent => {Refresh}
    case DeviceService => {Install, Verify, Refresh, Uninstall, Inventory, LiveContainerPush, InstalledApps}
    case DeviceAgent | TvosAgent => {Install, Verify, Uninstall, Inventory}
  }

  /** Which roles may ask for a type; no role may ask for a type the code does not name. */
  lemma WhoMayClaim(t: JobType, role: Role)
    ensures t in AllowedJobTypes(role) <==>
              match t
              case Sign | ExportP12 | AppIDs => role == SigningWorker
              case Refresh => role == RefreshAgent || role == DeviceService
              case Install | Verify | Uninstall | Inventory =>
                role == DeviceService || role == DeviceAgent || role == TvosAgent
              case LiveContainerPush | InstalledApps => role == DeviceService
              case OtherType(_) => false
  {
  }

  /** agentRole: unknown agents get the device-scoped default, and an agent
      named "signing-worker" is promoted. */
  function EffectiveRole(fleet: Fleet, agent: AgentId): Role {
    if agent !in fleet.agents then DeviceAgent
    else if fleet.agents[agent].namedSigningWorker then SigningWorker
    else fleet.agents[agent].role
  }

  /** The agents table after that promotion. */
  function Promoted(fleet: Fleet, agent: AgentId): Fleet {
    if agent in fleet.agents
    then fleet.(agents := fleet.agents[agent := fleet.agents[agent].(role := EffectiveRole(fleet, agent))])
    else fleet
  }

  datatype ClaimReply = Forbidden | Jobs(ids: seq<JobId>)

  class Server {
    const queue: Service
    var fleet: Fleet

    constructor (queue: Service, fleet: Fleet)
      ensures this.queue == queue && this.fleet == fleet
    {
      this.queue, this.fleet := queue, fleet;
    }

    method AgentRole(agent: AgentId) returns (role: Role)
      modifies this`fleet
      ensures role == EffectiveRole(old(fleet), agent) && fleet == Promoted(old(fleet), agent)
      ensures agent !in old(fleet).agents ==> role == DeviceAgent && fleet == old(fleet)
      ensures agent in old(fleet).agents ==>
        && fleet == old(fleet).(agents := old(fleet).agents[agent := old(fleet).agents[agent].(role := role)])
        && role == if old(fleet).agents[agent].namedSigningWorker then SigningWorker else old(fleet).agents[agent].role
    {
      if agent in fleet.agents {
        if fleet.agents[agent].namedSigningWorker && fleet.agents[agent].role != SigningWorker {
          fleet := fleet.(agents := fleet.agents[agent := fleet.agents[agent].(role := SigningWorker)]);
          return SigningWorker;
        }
        assert fleet.agents[agent := fleet.agents[agent]] == fleet.agents;
        return fleet.agents[agent].role;
      }
      return DeviceAgent;
    }

    /** handleClaimJobs. */
    method HandleClaimJobs(agent: AgentId, req: ClaimRequest, locked: set<JobId>, now: Time) returns (reply: ClaimReply)
      modifies this`fleet, queue`jobs
      // looking up the role may promote the agent, whatever the answer
      ensures fleet == Promoted(old(fleet), agent)
      // refused, with nothing claimed, exactly when some requested type is not the role's
      ensures reply == Forbidden <==> !(req.types <= AllowedJobTypes(EffectiveRole(old(fleet), agent)))
      ensures reply == Forbidden ==> queue.Db() == old(queue.Db())
      ensures reply.Jobs? ==>
        && ClaimAnswers(old(queue.jobs), fleet, agent,
             req.(types := if req.types == {} then AllowedJobTypes(EffectiveRole(old(fleet), agent)) else req.types),
             locked, now, reply.ids)
        && queue.Db() == GrantAll(old(queue.Db()), Elements(reply.ids), agent, now, queue.cfg)
      // no row reaches a role that may not ask for its type
      ensures reply.Jobs? ==> forall id :: id in reply.ids ==>
        && id in old(queue.jobs)
        && old(queue.jobs)[id].jobType in AllowedJobTypes(EffectiveRole(old(fleet), agent))
        && (old(queue.jobs)[id].jobType in PRIVILEGED <==> EffectiveRole(old(fleet), agent) == SigningWorker)
    {
      var role := AgentRole(agent);
      var allowed := AllowedJobTypes(role);
      var effective := allowed;
      if req.types != {} {
        if !(req.types <= allowed) { return Forbidden; }
        effective := req.types;
      }
      var ids := queue.Claim(fleet, agent, req.(types := effective), locked, now);
      forall id | id in ids ensures Takable(old(queue.jobs), locked, id, effective, now) {
        assert Proper(old(queue.jobs), fleet, agent, req.(types := effective), locked, now, id);
      }
      return Jobs(ids);
    }
  }
}
