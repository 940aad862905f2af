/** broker/broker.go: the broker's methods, step by step, each proved to complete the operation it implements. */
module Broker {
  import opened Wrappers
  import opened Text
  import opened ComposeApi
  import opened Catalog
  import opened OperationData
  import opened Operations

  /** newestRestorableBackup */
  method NewestRestorableBackup(backups: seq<Backup>) returns (newest: Option<Backup>)
    ensures newest == match NewestAmong(backups, |backups|) case None => None case Some(i) => Some(backups[i])
    ensures newest.Some? ==> exists i: nat :: IsNewestRestorable(backups, i) && newest.value == backups[i]
    ensures newest.None? <==> forall j :: 0 <= j < |backups| ==> !backups[j].isRestorable
  {
    newest := None;
    for i := 0 to |backups|
      invariant newest == match NewestAmong(backups, i) case None => None case Some(j) => Some(backups[j])
    {
      var backup := backups[i];
      if !backup.isRestorable {
        continue;
      }
      if newest.None? || backup.createdAt > newest.value.createdAt {
        newest := Some(backup);
      }
    }
    NewestAmongIsNewest(backups, |backups|);
    assert backups[..|backups|] == backups;
  }

  class Broker {
    const settings: Settings
    const client: Client

    constructor (settings: Settings, client: Client)
      ensures this.settings == settings && this.client == client
    {
      this.settings, this.client := settings, client;
    }

    /** What has been said to Compose since the transcript had n entries. */
    ghost function Since(n: nat): seq<Event>
      requires n <= |client.transcript|
      reads client
    {
      client.transcript[n..]
    }

    /** The operation has produced the transcript since n and reached p. */
    ghost predicate At(req: Request, n: nat, p: Point)
      reads client
    {
      n <= |client.transcript| && After(settings, req, Since(n)) == Some(p)
    }

    /** One client call of the operation `req`, made where the operation has it pending. */
    method Exchange(ghost req: Request, ghost n: nat, ghost p: Point, call: Call) returns (reply: Reply)
      requires At(req, n, p) && !p.Done? && call == Pending(settings, req, p)
      modifies client
      ensures old(client.transcript) <= client.transcript
      ensures Fits(call, reply) && At(req, n, Resume(settings, req, p, reply))
    {
      ghost var h := Since(n);
      reply := client.Issue(call);
      AfterOne(settings, req, h, Event(call, reply));
      assert Since(n) == h + [Event(call, reply)];
    }

    method Provision(req: Request) returns (o: Outcome)
      requires req.Provision?
      modifies client
      ensures old(client.transcript) <= client.transcript
      ensures Completes(settings, req, Since(|old(client.transcript)|), o)
    {
      ghost var n := |client.transcript|;
      if !req.asyncAllowed {
        return Refused(AsyncRequired);
      }
      if req.parameters.Unusable? {
        return Refused(Message(req.parameters.message));
      }
      var name := MakeInstanceName(settings.dbPrefix, req.instanceID);
      if name.Failure? {
        return Refused(Message(name.error));
      }
      var made: Result<Option<Deployment>, BrokerError>;
      if req.parameters.RestoreFrom? {
        made := CreateDeploymentFromLatestSnapshot(req, n, name.value);
      } else {
        made := CreateDeployment(req, n, name.value);
      }
      if made.Failure? {
        return Refused(made.error);
      }
      if made.value.None? {
        return Refused(Message("unexpected nil deployment"));
      }
      var deployment := made.value.value;

      // From here on, leaving without ok undoes the creation.
      var ok := false;
      var whitelisted := RequestWhitelist(req, n, deployment);
      if whitelisted.Failure? {
        o := Refused(whitelisted.error);
      } else {
        o := Accepted(Encode(OperationData("provision", deployment.provisionRecipeID, whitelisted.value)));
        ok := true;
      }
      if !ok {
        var _ := Exchange(req, n, Compensating(deployment, o.error), DeprovisionDeployment(deployment.id));
      }
    }

    /** Provision's whitelist loop */
    method RequestWhitelist(ghost req: Request, ghost n: nat, deployment: Deployment)
      returns (r: Result<seq<Id>, BrokerError>)
      requires req.Provision? && At(req, n, Proceed(settings, deployment, []))
      modifies client
      ensures old(client.transcript) <= client.transcript
      ensures match r
              case Failure(e) => At(req, n, Compensating(deployment, e))
              case Success(ids) =>
                At(req, n, Done(Accepted(Encode(OperationData("provision", deployment.provisionRecipeID, ids)))))
    {
      var whitelistRecipeIDs: seq<Id> := [];
      for i := 0 to |settings.ipWhitelist|
        invariant old(client.transcript) <= client.transcript
        invariant |whitelistRecipeIDs| == i
        invariant At(req, n, Proceed(settings, deployment, whitelistRecipeIDs))
      {
        var ip := settings.ipWhitelist[i];
        var call := CreateDeploymentWhitelist(deployment.id, ip, "Allow " + ip + " to access deployment");
        var reply := Exchange(req, n, Whitelisting(deployment, whitelistRecipeIDs), call);
        if reply.Errors? {
          return Failure(Message(SquashErrors(reply.first, reply.others)));
        }
        if reply.Nil? {
          return Failure(Message("malformed response from Compose: no pending whitelist recipe received"));
        }
        if reply.recipe.id == "" {
          return Failure(Message("malformed response from Compose: invalid whitelist recipe ID"));
        }
        whitelistRecipeIDs := whitelistRecipeIDs + [reply.recipe.id];
      }
      return Success(whitelistRecipeIDs);
    }

    method CreateDeployment(req: Request, ghost n: nat, newInstanceName: string)
      returns (r: Result<Option<Deployment>, BrokerError>)
      requires req.Provision? && req.parameters.Blank? && n == |client.transcript|
      requires req.asyncAllowed && MakeInstanceName(settings.dbPrefix, req.instanceID) == Success(newInstanceName)
      modifies client
      ensures old(client.transcript) <= client.transcript
      ensures match r
              case Failure(e) => At(req, n, Done(Refused(e)))
              case Success(None) => At(req, n, Refuse("unexpected nil deployment"))
              case Success(Some(d)) => At(req, n, Proceed(settings, d, []))
    {
      var plan := FindServicePlan(settings, req.serviceID, req.planID);
      if plan.Failure? {
        return Failure(Message(plan.error));
      }
      var call := ComposeApi.CreateDeployment(newInstanceName, settings.accountID, DATACENTER,
        plan.value.databaseType, plan.value.units, true, settings.clusterID, req.spaceID);
      var reply := Exchange(req, n, Creating(plan.value), call);
      if reply.Errors? {
        return Failure(Message(SquashErrors(reply.first, reply.others)));
      }
      return Success(if reply.Nil? then None else Some(reply.deployment));
    }

    method CreateDeploymentFromLatestSnapshot(req: Request, ghost n: nat, newInstanceName: string)
      returns (r: Result<Option<Deployment>, BrokerError>)
      requires req.Provision? && req.parameters.RestoreFrom? && n == |client.transcript|
      requires req.asyncAllowed && MakeInstanceName(settings.dbPrefix, req.instanceID) == Success(newInstanceName)
      modifies client
      ensures old(client.transcript) <= client.transcript
      ensures match r
              case Failure(e) => At(req, n, Done(Refused(e)))
              case Success(None) => At(req, n, Refuse("unexpected nil deployment"))
              case Success(Some(d)) => At(req, n, Proceed(settings, d, []))
    {
      var restoreFrom := req.parameters.sourceInstanceID;
      var oldInstanceName := MakeInstanceName(settings.dbPrefix, restoreFrom);
      if oldInstanceName.Failure? {
        return Failure(Message(oldInstanceName.error));
      }
      var plan := FindServicePlan(settings, req.serviceID, req.planID);
      if plan.Failure? {
        return Failure(Message(plan.error));
      }

      var chosen := ChooseSnapshot(req, n, plan.value, oldInstanceName.value);
      if chosen.Failure? {
        return Failure(chosen.error);
      }
      var (oldDeployment, backup) := chosen.value;

      var restore := RestoreBackup(oldDeployment.id, backup.id, newInstanceName, DATACENTER, true,
        settings.clusterID);
      var reply := Exchange(req, n, Restoring(oldDeployment, backup.id), restore);
      if reply.Errors? {
        return Failure(Message(SquashErrors(reply.first, reply.others)));
      }
      var deployment := reply.deployment;
      var provisionRecipeID := deployment.provisionRecipeID;

      reply := Exchange(req, n, Patching(deployment), PatchDeployment(deployment.id, req.spaceID));
      if reply.Errors? {
        return Failure(Message(SquashErrors(reply.first, reply.others)));
      }
      deployment := reply.deployment;
      deployment := deployment.(provisionRecipeID := provisionRecipeID);
      return Success(Some(deployment));
    }

    /** The part of createDeploymentFromLatestSnapshot that only reads. */
    method ChooseSnapshot(req: Request, ghost n: nat, plan: ComposeConfig, oldInstanceName: string)
      returns (r: Result<(Deployment, Backup), BrokerError>)
      requires req.Provision? && req.parameters.RestoreFrom? && At(req, n, FindingSource(plan))
      requires oldInstanceName == InstanceName(settings.dbPrefix, req.parameters.sourceInstanceID)
      modifies client
      ensures old(client.transcript) <= client.transcript
      ensures match r
              case Failure(e) => At(req, n, Done(Refused(e)))
              case Success((d, backup)) => At(req, n, Restoring(d, backup.id))
    {
      var reply := Exchange(req, n, FindingSource(plan), GetDeploymentByName(oldInstanceName));
      var found := Found(reply);
      if found.Failure? {
        return Failure(Message("service '" + req.parameters.sourceInstanceID + "' does not exist"));
      }
      var oldDeployment := found.value;
      if oldDeployment.customerBillingCode != req.spaceID {
        return Failure(Message("you are only allowed to restore from backup to the same space"));
      }
      if oldDeployment.databaseType != plan.databaseType {
        return Failure(Message("you are only allowed to restore a backup from the same service type"));
      }

      reply := Exchange(req, n, ListingBackups(oldDeployment), GetBackupsForDeployment(oldDeployment.id));
      if reply.Errors? {
        return Failure(Message(SquashErrors(reply.first, reply.others)));
      }
      var chosen := NewestRestorableBackup(reply.backups);
      if chosen.None? {
        return Failure(Message("that instance has no restorable snapshots"));
      }
      return Success((oldDeployment, chosen.value));
    }

    /** findDeployment, for the operations on an existing instance */
    method FindDeployment(ghost req: Request, ghost n: nat, name: string)
      returns (r: Result<Deployment, BrokerError>)
      requires At(req, n, Finding) && name == InstanceName(settings.dbPrefix, req.instanceID)
      modifies client
      ensures old(client.transcript) <= client.transcript
      ensures match r
              case Failure(e) => At(req, n, Done(Refused(e)))
              case Success(d) => At(req, n, ResumeFound(settings, req, d))
    {
      var reply := Exchange(req, n, Finding, GetDeploymentByName(name));
      match Found(reply) {
        case Success(d) => return Success(d);
        case Failure(NotFound) => return Failure(InstanceDoesNotExist);
        case Failure(Other(text)) => return Failure(Message(text));
      }
    }

    method Deprovision(req: Request) returns (o: Outcome)
      requires req.Deprovision?
      modifies client
      ensures old(client.transcript) <= client.transcript
      ensures Completes(settings, req, Since(|old(client.transcript)|), o)
    {
      ghost var n := |client.transcript|;
      if !req.asyncAllowed {
        return Refused(AsyncRequired);
      }
      var name := MakeInstanceName(settings.dbPrefix, req.instanceID);
      if name.Failure? {
        return Refused(Message(name.error));
      }
      var found := FindDeployment(req, n, name.value);
      if found.Failure? {
        return Refused(found.error);
      }
      var reply := Exchange(req, n, Removing(found.value), DeprovisionDeployment(found.value.id));
      if reply.Errors? {
        return Refused(Message(SquashErrors(reply.first, reply.others)));
      }
      return Accepted(Encode(OperationData("deprovision", reply.recipe.id, [])));
    }

    method Update(req: Request) returns (o: Outcome)
      requires req.Update?
      modifies client
      ensures old(client.transcript) <= client.transcript
      ensures Completes(settings, req, Since(|old(client.transcript)|), o)
    {
      ghost var n := |client.transcript|;
      if !req.asyncAllowed {
        return Refused(AsyncRequired);
      }
      var service := FindService(settings.catalog, req.serviceID);
      if service.Failure? {
        return Refused(Message(service.error));
      }
      var name := MakeInstanceName(settings.dbPrefix, req.instanceID);
      if name.Failure? {
        return Refused(Message(name.error));
      }
      var found := FindDeployment(req, n, name.value);
      if found.Failure? {
        return Refused(found.error);
      }
      if req.planID != req.previousPlanID {
        return Refused(Message("changing plans is not currently supported"));
      }
      var plan := FindPlan(service.value.plans, req.planID);
      if plan.Failure? {
        return Refused(Message(plan.error));
      }
      var units := plan.value.compose.units;
      var reply := Exchange(req, n, Scaling(found.value, units), SetScalings(found.value.id, units));
      if reply.Errors? {
        return Refused(Message(SquashErrors(reply.first, reply.others)));
      }
      return Accepted(Encode(OperationData("update", reply.recipe.id, [])));
    }

    /** Bind and Unbind up to the point where the database engine takes over. */
    method Connect(req: Request) returns (o: Outcome)
      requires req.Bind? || req.Unbind?
      modifies client
      ensures old(client.transcript) <= client.transcript
      ensures Completes(settings, req, Since(|old(client.transcript)|), o)
    {
      ghost var n := |client.transcript|;
      var name := MakeInstanceName(settings.dbPrefix, req.instanceID);
      if name.Failure? {
        return Refused(Message(name.error));
      }
      var found := FindDeployment(req, n, name.value);
      if found.Failure? {
        return Refused(found.error);
      }
      if req.Bind? && |found.value.direct| < 1 {
        return Refused(Message("failed to get connection string"));
      }
      match GetDBEngine(found.value) {
        case Failure(e) => return Refused(Message(e));
        case Success(engine) => return Connected(engine, found.value);
      }
    }

    /** One GetRecipe of a poll, and the state its answer maps to */
    method ReadState(ghost req: Request, ghost n: nat, ghost ids: seq<Id>, ghost k: nat, recipeID: Id)
      returns (r: Result<State, BrokerError>)
      requires req.LastOperation? && k < |ids| && recipeID == ids[k] && At(req, n, Polling(ids, k))
      modifies client
      ensures old(client.transcript) <= client.transcript
      ensures match r
              case Failure(e) => At(req, n, Done(Refused(e)))
              case Success(state) =>
                At(req, n, if state == Succeeded && k + 1 < |ids| then Polling(ids, k + 1) else Done(Polled(state)))
    {
      var reply := Exchange(req, n, Polling(ids, k), GetRecipe(recipeID));
      if reply.Errors? {
        return Failure(Message(SquashErrors(reply.first, reply.others)));
      }
      return Success(LookupState(reply.recipe.status));
    }

    method LastOperation(req: Request) returns (o: Outcome)
      requires req.LastOperation?
      modifies client
      ensures old(client.transcript) <= client.transcript
      ensures Completes(settings, req, Since(|old(client.transcript)|), o)
    {
      ghost var n := |client.transcript|;
      var decoded := Decode(req.operationData);
      if decoded.None? {
        return Refused(Message("malformed operation data"));
      }
      var data := decoded.value;
      ghost var ids := [data.recipeID] + data.whitelistRecipeIDs;

      var deploymentState := ReadState(req, n, ids, 0, data.recipeID);
      if deploymentState.Failure? {
        return Refused(deploymentState.error);
      }
      if deploymentState.value != Succeeded {
        return Polled(deploymentState.value);
      }

      for i := 0 to |data.whitelistRecipeIDs|
        invariant old(client.transcript) <= client.transcript
        invariant At(req, n, if i < |data.whitelistRecipeIDs| then Polling(ids, i + 1) else Done(Polled(Succeeded)))
      {
        var state := ReadState(req, n, ids, i + 1, data.whitelistRecipeIDs[i]);
        if state.Failure? {
          return Refused(state.error);
        }
        if state.value != Succeeded {
          return Polled(state.value);
        }
      }
      return Polled(deploymentState.value);
    }
  }
}
