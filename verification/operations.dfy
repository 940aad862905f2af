/**
  broker/broker.go and broker/utils.go: each broker operation as a program over Compose replies. A program point says
  which call comes next and, for every reply, which point follows; a transcript determines the point reached.
*/
module Operations {
  import opened Wrappers
  import opened Text
  import opened ComposeApi
  import opened Catalog
  import opened OperationData

  const DATACENTER := "aws:eu-west-1"

  datatype Settings = Settings(
    dbPrefix: string,
    accountID: string,
    clusterID: string,
    ipWhitelist: seq<string>,
    catalog: seq<ServiceValue>)

  /** The provision parameters after parsing. */
  datatype Parameters = Unusable(message: string) | Blank | RestoreFrom(sourceInstanceID: string)

  datatype Request =
    | Provision(instanceID: string, serviceID: string, planID: string, spaceID: string,
                parameters: Parameters, asyncAllowed: bool)
    | Deprovision(instanceID: string, asyncAllowed: bool)
    | Bind(instanceID: string)
    | Unbind(instanceID: string)
    | Update(instanceID: string, serviceID: string, planID: string, previousPlanID: string, asyncAllowed: bool)
    | LastOperation(instanceID: string, operationData: string)

  datatype BrokerError = AsyncRequired | InstanceDoesNotExist | Message(text: string)

  datatype State = Succeeded | InProgress | Failed

  datatype Engine = MongoDB | ElasticSearch

  datatype Outcome =
    | Refused(error: BrokerError)
    | Accepted(operationData: string)
    | Polled(state: State)
    | Connected(engine: Engine, deployment: Deployment)

  /** lookupBrokerAPIState: a status Compose never announced counts as failed. */
  function LookupState(composeStatus: string): State {
    if composeStatus == "complete" then Succeeded
    else if composeStatus == "running" || composeStatus == "waiting" then InProgress
    else Failed
  }

  /** MakeInstanceName */
  function MakeInstanceName(dbPrefix: string, instanceID: string): Result<string, string> {
    if dbPrefix == "" then Failure("dbPrefix can't be empty")
    else if instanceID == "" then Failure("instanceID can't be empty")
    else Success(InstanceName(dbPrefix, instanceID))
  }

  function InstanceName(dbPrefix: string, instanceID: string): string {
    TrimSpace(dbPrefix) + "-" + instanceID
  }

  datatype FindError = NotFound | Other(text: string)

  /** findDeployment, given what the client replied. */
  function Found(reply: Reply): Result<Deployment, FindError> {
    match reply
    case GotDeployment(d) => Success(d)
    case Errors(first, others) =>
      if Contains(first, "deployment not found") then Failure(NotFound)
      else Failure(Other(SquashErrors(first, others)))
    case _ => Failure(NotFound)
  }

  /** Position of the newest restorable backup, the first one among equally new ones. */
  ghost predicate IsNewestRestorable(backups: seq<Backup>, i: nat) {
    && i < |backups| && backups[i].isRestorable
    && (forall j :: 0 <= j < |backups| && backups[j].isRestorable ==> backups[j].createdAt <= backups[i].createdAt)
    && (forall j :: 0 <= j < i && backups[j].isRestorable ==> backups[j].createdAt < backups[i].createdAt)
  }

  /** newestRestorableBackup over the first n backups */
  function NewestAmong(backups: seq<Backup>, n: nat): (r: Option<nat>)
    requires n <= |backups|
    ensures r.Some? ==> r.value < n
  {
    if n == 0 then None
    else
      var best := NewestAmong(backups, n - 1);
      if !backups[n - 1].isRestorable then best
      else if best == None || backups[n - 1].createdAt > backups[best.value].createdAt then Some(n - 1)
      else best
  }

  lemma {:induction false} NewestAmongIsNewest(backups: seq<Backup>, n: nat)
    requires n <= |backups|
    ensures match NewestAmong(backups, n)
            case Some(i) => IsNewestRestorable(backups[..n], i)
            case None => forall j :: 0 <= j < n ==> !backups[j].isRestorable
  {
    if n > 0 {
      NewestAmongIsNewest(backups, n - 1);
      assert forall j :: 0 <= j < n - 1 ==> backups[..n - 1][j] == backups[..n][j] == backups[j];
    }
  }

  function FindServicePlan(settings: Settings, serviceID: string, planID: string): Result<ComposeConfig, string> {
    match FindService(settings.catalog, serviceID)
    case Failure(e) => Failure(e)
    case Success(service) =>
      match FindPlan(service.plans, planID)
      case Failure(e) => Failure(e)
      case Success(plan) => Success(plan.compose)
  }

  /** ProviderService.GetDBEngine */
  function GetDBEngine(d: Deployment): Result<Engine, string> {
    var kind := ToLower(d.databaseType);
    if kind == "mongodb" then Success(MongoDB)
    else if kind == "elastic_search" then Success(ElasticSearch)
    else Failure("DB Engine '" + d.databaseType + "' not supported")
  }

  // ---------- program points ----------

  datatype Point =
    | Creating(plan: ComposeConfig)
    | FindingSource(plan: ComposeConfig)
    | ListingBackups(source: Deployment)
    | Restoring(source: Deployment, backupID: Id)
    | Patching(restored: Deployment)
    | Whitelisting(target: Deployment, recipeIDs: seq<Id>)
    | Compensating(target: Deployment, error: BrokerError)
    | Finding
    | Removing(target: Deployment)
    | Scaling(target: Deployment, units: int)
    | Polling(ids: seq<Id>, k: nat)
    | Done(outcome: Outcome)

  /** The points an operation can be at. */
  predicate Belongs(settings: Settings, req: Request, p: Point) {
    match p
    case Creating(_) => req.Provision? && req.parameters.Blank?
    case FindingSource(_) => req.Provision? && req.parameters.RestoreFrom?
    case ListingBackups(_) => req.Provision? && req.parameters.RestoreFrom?
    case Restoring(_, _) => req.Provision? && req.parameters.RestoreFrom?
    case Patching(_) => req.Provision? && req.parameters.RestoreFrom?
    case Whitelisting(_, ids) => req.Provision? && |ids| < |settings.ipWhitelist|
    case Compensating(_, _) => req.Provision?
    case Finding => req.Deprovision? || req.Bind? || req.Unbind? || req.Update?
    case Removing(_) => req.Deprovision?
    case Scaling(_, _) => req.Update?
    case Polling(ids, k) => req.LastOperation? && k < |ids|
    case Done(_) => true
  }

  function Refuse(text: string): Point {
    Done(Refused(Message(text)))
  }

  /** Everything an operation checks before it first talks to Compose. */
  function Begin(settings: Settings, req: Request): (p: Point)
    ensures Belongs(settings, req, p)
  {
    match req
    case Provision(instanceID, serviceID, planID, _, parameters, asyncAllowed) =>
      if !asyncAllowed then Done(Refused(AsyncRequired))
      else if parameters.Unusable? then Refuse(parameters.message)
      else
        match MakeInstanceName(settings.dbPrefix, instanceID) {
          case Failure(e) => Refuse(e)
          case Success(_) =>
            if parameters.Blank? then
              match FindServicePlan(settings, serviceID, planID) {
                case Failure(e) => Refuse(e)
                case Success(plan) => Creating(plan)
              }
            else
              match MakeInstanceName(settings.dbPrefix, parameters.sourceInstanceID) {
                case Failure(e) => Refuse(e)
                case Success(_) =>
                  match FindServicePlan(settings, serviceID, planID) {
                    case Failure(e) => Refuse(e)
                    case Success(plan) => FindingSource(plan)
                  }
              }
        }
    case Deprovision(instanceID, asyncAllowed) =>
      if !asyncAllowed then Done(Refused(AsyncRequired)) else BeginFinding(settings, instanceID)
    case Bind(instanceID) => BeginFinding(settings, instanceID)
    case Unbind(instanceID) => BeginFinding(settings, instanceID)
    case Update(instanceID, serviceID, _, _, asyncAllowed) =>
      if !asyncAllowed then Done(Refused(AsyncRequired))
      else
        match FindService(settings.catalog, serviceID) {
          case Failure(e) => Refuse(e)
          case Success(_) => BeginFinding(settings, instanceID)
        }
    case LastOperation(_, operationData) =>
      match Decode(operationData)
      case None => Refuse("malformed operation data")
      case Some(data) => Polling([data.recipeID] + data.whitelistRecipeIDs, 0)
  }

  function BeginFinding(settings: Settings, instanceID: string): Point {
    match MakeInstanceName(settings.dbPrefix, instanceID)
    case Failure(e) => Refuse(e)
    case Success(_) => Finding
  }

  /** The call made at a point. */
  function Pending(settings: Settings, req: Request, p: Point): Call
    requires !p.Done? && Belongs(settings, req, p)
  {
    var name := InstanceName(settings.dbPrefix, req.instanceID);
    match p
    case Creating(plan) =>
      CreateDeployment(name, settings.accountID, DATACENTER, plan.databaseType, plan.units, true,
                       settings.clusterID, req.spaceID)
    case FindingSource(_) =>
      GetDeploymentByName(InstanceName(settings.dbPrefix, req.parameters.sourceInstanceID))
    case ListingBackups(source) => GetBackupsForDeployment(source.id)
    case Restoring(source, backupID) =>
      RestoreBackup(source.id, backupID, name, DATACENTER, true, settings.clusterID)
    case Patching(restored) => PatchDeployment(restored.id, req.spaceID)
    case Whitelisting(target, ids) => WhitelistCall(target.id, settings.ipWhitelist[|ids|])
    case Compensating(target, _) => DeprovisionDeployment(target.id)
    case Finding => GetDeploymentByName(name)
    case Removing(target) => DeprovisionDeployment(target.id)
    case Scaling(target, units) => SetScalings(target.id, units)
    case Polling(ids, k) => GetRecipe(ids[k])
  }

  function WhitelistCall(deploymentID: Id, ip: string): Call {
    CreateDeploymentWhitelist(deploymentID, ip, "Allow " + ip + " to access deployment")
  }

  /** Where Provision goes once `ids` have been collected: the next address, or the operation data. */
  function Proceed(settings: Settings, target: Deployment, ids: seq<Id>): Point {
    if |ids| < |settings.ipWhitelist| then Whitelisting(target, ids)
    else Done(Accepted(Encode(OperationData("provision", target.provisionRecipeID, ids))))
  }

  /** Where an operation goes after the reply to its pending call. */
  function Resume(settings: Settings, req: Request, p: Point, reply: Reply): (q: Point)
    requires !p.Done? && Belongs(settings, req, p) && Fits(Pending(settings, req, p), reply)
    ensures Belongs(settings, req, q)
  {
    match p
    case Creating(_) =>
      if reply.Errors? then Refuse(SquashErrors(reply.first, reply.others))
      else if reply.Nil? then Refuse("unexpected nil deployment")
      else Proceed(settings, reply.deployment, [])
    case FindingSource(plan) =>
      ResumeSource(req.parameters.sourceInstanceID, req.spaceID, plan, reply)
    case ListingBackups(source) =>
      ResumeBackups(source, reply)
    case Restoring(_, _) =>
      if reply.Errors? then Refuse(SquashErrors(reply.first, reply.others)) else Patching(reply.deployment)
    case Patching(restored) =>
      if reply.Errors? then Refuse(SquashErrors(reply.first, reply.others))
      else Proceed(settings, reply.deployment.(provisionRecipeID := restored.provisionRecipeID), [])
    case Whitelisting(target, ids) =>
      if reply.Errors? then Compensating(target, Message(SquashErrors(reply.first, reply.others)))
      else if reply.Nil? then
        Compensating(target, Message("malformed response from Compose: no pending whitelist recipe received"))
      else if reply.recipe.id == "" then
        Compensating(target, Message("malformed response from Compose: invalid whitelist recipe ID"))
      else Proceed(settings, target, ids + [reply.recipe.id])
    case Compensating(_, error) => Done(Refused(error))
    case Finding =>
      (match Found(reply)
       case Failure(NotFound) => Done(Refused(InstanceDoesNotExist))
       case Failure(Other(text)) => Refuse(text)
       case Success(d) => ResumeFound(settings, req, d))
    case Removing(_) =>
      if reply.Errors? then Refuse(SquashErrors(reply.first, reply.others))
      else Done(Accepted(Encode(OperationData("deprovision", reply.recipe.id, []))))
    case Scaling(_, _) =>
      if reply.Errors? then Refuse(SquashErrors(reply.first, reply.others))
      else Done(Accepted(Encode(OperationData("update", reply.recipe.id, []))))
    case Polling(ids, k) =>
      ResumePoll(ids, k, reply)
  }

  function ResumeSource(sourceInstanceID: string, spaceID: string, plan: ComposeConfig, reply: Reply): (q: Point)
    ensures q.ListingBackups? || q.Done?
  {
    match Found(reply)
    case Failure(_) => Refuse("service '" + sourceInstanceID + "' does not exist")
    case Success(source) =>
      if source.customerBillingCode != spaceID then
        Refuse("you are only allowed to restore from backup to the same space")
      else if source.databaseType != plan.databaseType then
        Refuse("you are only allowed to restore a backup from the same service type")
      else ListingBackups(source)
  }

  function ResumeBackups(source: Deployment, reply: Reply): (q: Point)
    requires reply.Errors? || reply.GotBackups?
    ensures q.Restoring? || q.Done?
  {
    if reply.Errors? then Refuse(SquashErrors(reply.first, reply.others))
    else
      match NewestAmong(reply.backups, |reply.backups|)
      case None => Refuse("that instance has no restorable snapshots")
      case Some(i) => Restoring(source, reply.backups[i].id)
  }

  /** Polling reads on past succeeded recipes only. */
  function ResumePoll(ids: seq<Id>, k: nat, reply: Reply): (q: Point)
    requires k < |ids| && (reply.Errors? || reply.GotRecipe?)
    ensures q.Done? || (q == Polling(ids, k + 1) && k + 1 < |ids|)
  {
    if reply.Errors? then Refuse(SquashErrors(reply.first, reply.others))
    else
      var state := LookupState(reply.recipe.status);
      if state != Succeeded || k + 1 == |ids| then Done(Polled(state)) else Polling(ids, k + 1)
  }

  function ResumeFound(settings: Settings, req: Request, d: Deployment): (q: Point)
    requires req.Deprovision? || req.Bind? || req.Unbind? || req.Update?
    ensures Belongs(settings, req, q)
  {
    match req
    case Deprovision(_, _) => Removing(d)
    case Update(_, serviceID, planID, previousPlanID, _) =>
      if planID != previousPlanID then Refuse("changing plans is not currently supported")
      else
        (match FindServicePlan(settings, serviceID, planID)
         case Failure(e) => Refuse(e)
         case Success(plan) => Scaling(d, plan.units))
    case _ =>
      if req.Bind? && d.direct == [] then Refuse("failed to get connection string")
      else
        match GetDBEngine(d)
        case Failure(e) => Refuse(e)
        case Success(engine) => Done(Connected(engine, d))
  }

  // ---------- transcripts ----------

  /** The point an operation has reached after a transcript; None if the operation cannot produce that transcript. */
  function After(settings: Settings, req: Request, h: seq<Event>): (r: Option<Point>)
    ensures r.Some? ==> Belongs(settings, req, r.value)
  {
    if h == [] then Some(Begin(settings, req))
    else
      match After(settings, req, h[..|h| - 1])
      case None => None
      case Some(p) =>
        var Event(call, reply) := h[|h| - 1];
        if !p.Done? && call == Pending(settings, req, p) && Fits(call, reply)
        then Some(Resume(settings, req, p, reply))
        else None
  }

  /** h is everything an operation said to Compose, and o is what it returned. */
  ghost predicate Completes(settings: Settings, req: Request, h: seq<Event>, o: Outcome) {
    After(settings, req, h) == Some(Done(o))
  }

  lemma AfterOne(settings: Settings, req: Request, h: seq<Event>, e: Event)
    requires After(settings, req, h).Some? && !After(settings, req, h).value.Done?
    requires e.call == Pending(settings, req, After(settings, req, h).value) && Fits(e.call, e.reply)
    ensures After(settings, req, h + [e])
            == Some(Resume(settings, req, After(settings, req, h).value, e.reply))
  {
    assert (h + [e])[..|h|] == h;
  }
}
