/**
  What every transcript of Provision looks like, whatever Compose replied and wherever the run stopped: the creating
  calls, then the whitelist requests, then a compensating call exactly when the run failed with a deployment in hand.
*/
module Transcripts {
  import opened Wrappers
  import opened ComposeApi
  import opened Catalog
  import opened OperationData
  import opened Operations

  /** How many calls Provision makes before it has a deployment. */
  function Preamble(req: Request): nat
    requires req.Provision?
  {
    if req.parameters.RestoreFrom? then 4 else 1
  }

  /** The deployment Provision obtained; after a restore it carries the recipe that RestoreBackup reported. */
  function Obtained(req: Request, h: seq<Event>): Option<Deployment>
    requires req.Provision?
  {
    if req.parameters.RestoreFrom? then
      if |h| >= 4 && h[2].reply.GotDeployment? && h[3].reply.GotDeployment?
      then Some(h[3].reply.deployment.(provisionRecipeID := h[2].reply.deployment.provisionRecipeID))
      else None
    else if |h| >= 1 && h[0].reply.GotDeployment? then Some(h[0].reply.deployment)
    else None
  }

  /** The deployments a transcript asks Compose to remove, in order. */
  function Deprovisioned(h: seq<Event>): seq<Id> {
    if h == [] then []
    else
      var rest := Deprovisioned(h[..|h| - 1]);
      var call := h[|h| - 1].call;
      if call.DeprovisionDeployment? then rest + [call.deploymentID] else rest
  }

  /** Entries b, b + 1, ... of h are the whitelist requests for the first |ids| addresses, answered with `ids`. */
  ghost predicate Granted(settings: Settings, h: seq<Event>, b: nat, target: Id, ids: seq<Id>) {
    && |ids| <= |settings.ipWhitelist| && b + |ids| <= |h|
    && forall i :: 0 <= i < |ids| ==>
         && h[b + i].call == WhitelistCall(target, settings.ipWhitelist[i])
         && h[b + i].reply.GotRecipe? && h[b + i].reply.recipe.id == ids[i] && ids[i] != ""
  }

  /** The reply that made Provision give up on the whitelist. */
  predicate Unusable(reply: Reply) {
    reply.Errors? || reply.Nil? || (reply.GotRecipe? && reply.recipe.id == "")
  }

  /** After the grants `ids`, one more whitelist request went wrong. */
  ghost predicate BrokenOff(settings: Settings, h: seq<Event>, b: nat, target: Id, ids: seq<Id>) {
    && Granted(settings, h, b, target, ids)
    && |ids| < |settings.ipWhitelist| && b + |ids| < |h|
    && h[b + |ids|].call == WhitelistCall(target, settings.ipWhitelist[|ids|])
    && Unusable(h[b + |ids|].reply)
  }

  /** The source is in the requesting space and of the plan's type. */
  ghost predicate SourceMatches(settings: Settings, req: Request, source: Deployment)
    requires req.Provision? && req.parameters.RestoreFrom?
  {
    && source.customerBillingCode == req.spaceID
    && FindServicePlan(settings, req.serviceID, req.planID).Success?
    && source.databaseType == FindServicePlan(settings, req.serviceID, req.planID).value.databaseType
  }

  /** h starts with looking up a matching source, and listing its backups. */
  ghost predicate SourceFound(settings: Settings, req: Request, h: seq<Event>)
    requires req.Provision? && req.parameters.RestoreFrom?
  {
    && |h| >= 1 && h[0].reply.GotDeployment?
    && h[0].call == GetDeploymentByName(InstanceName(settings.dbPrefix, req.parameters.sourceInstanceID))
    && SourceMatches(settings, req, h[0].reply.deployment)
    && (|h| >= 2 ==> h[1].call == GetBackupsForDeployment(h[0].reply.deployment.id))
  }

  ghost predicate NewestChosen(h: seq<Event>, backupID: Id) {
    && |h| >= 2 && h[1].reply.GotBackups?
    && exists i: nat :: IsNewestRestorable(h[1].reply.backups, i) && backupID == h[1].reply.backups[i].id
  }

  /** The third call restores the newest restorable backup of the source that was found, under the new name. */
  ghost predicate RestoreIssued(settings: Settings, h: seq<Event>, name: string) {
    && |h| >= 3 && h[0].reply.GotDeployment? && h[2].call.RestoreBackup?
    && h[2].call == RestoreBackup(h[0].reply.deployment.id, h[2].call.backupID, name, DATACENTER, true,
                                  settings.clusterID)
    && NewestChosen(h, h[2].call.backupID)
  }

  /** The first call creates a deployment as the plan, the settings and the requesting space say. */
  ghost predicate CreateIssued(settings: Settings, req: Request, h: seq<Event>, name: string)
    requires req.Provision?
  {
    && |h| >= 1 && FindServicePlan(settings, req.serviceID, req.planID).Success?
    && var plan := FindServicePlan(settings, req.serviceID, req.planID).value;
       h[0].call == CreateDeployment(name, settings.accountID, DATACENTER, plan.databaseType, plan.units, true,
                                     settings.clusterID, req.spaceID)
  }

  /** Provision's first calls are the creating ones, as far as h goes. */
  ghost predicate Opening(settings: Settings, req: Request, h: seq<Event>)
    requires req.Provision?
  {
    var name := InstanceName(settings.dbPrefix, req.instanceID);
    if req.parameters.RestoreFrom? then
      && (|h| >= 2 ==> SourceFound(settings, req, h))
      && (|h| >= 3 ==> RestoreIssued(settings, h, name))
      && (|h| >= 4 ==>
            h[2].reply.GotDeployment? && h[3].call == PatchDeployment(h[2].reply.deployment.id, req.spaceID))
    else |h| >= 1 ==> CreateIssued(settings, req, h, name)
  }

  /** What a transcript of Provision contains when it has reached p. */
  ghost predicate Shape(settings: Settings, req: Request, h: seq<Event>, p: Point)
    requires req.Provision?
  {
    var b := Preamble(req);
    && Opening(settings, req, h)
    && match p
       case Creating(plan) => h == [] && FindServicePlan(settings, req.serviceID, req.planID) == Success(plan)
       case FindingSource(plan) => h == [] && FindServicePlan(settings, req.serviceID, req.planID) == Success(plan)
       case ListingBackups(source) =>
         req.parameters.RestoreFrom? && |h| == 1 && Deprovisioned(h) == []
         && SourceFound(settings, req, h) && h[0].reply.deployment == source
       case Restoring(source, backupID) =>
         req.parameters.RestoreFrom? && |h| == 2 && Deprovisioned(h) == []
         && SourceFound(settings, req, h) && h[0].reply.deployment == source && NewestChosen(h, backupID)
       case Patching(restored) =>
         req.parameters.RestoreFrom? && |h| == 3 && Deprovisioned(h) == [] && h[2].reply == GotDeployment(restored)
       case Whitelisting(target, ids) => InHand(settings, req, h, target, ids)
       case Compensating(target, _) =>
         Deprovisioned(h) == [] && |h| > b && BrokenOffAt(settings, req, h, |h| - b - 1, target)
       case Done(Accepted(text)) => exists target, ids :: AcceptedWith(settings, req, h, text, target, ids)
       case Done(Refused(_)) =>
         if Obtained(req, h).None? then |h| <= b && Deprovisioned(h) == []
         else
           && |h| > b + 1 && BrokenOffAt(settings, req, h, |h| - b - 2, Obtained(req, h).value)
           && Deprovisioned(h) == [Obtained(req, h).value.id]
           && h[|h| - 1].call == DeprovisionDeployment(Obtained(req, h).value.id)
       case _ => false
  }

  /** Nothing has gone wrong yet: `target` was obtained and `ids` are the grants so far. */
  ghost predicate InHand(settings: Settings, req: Request, h: seq<Event>, target: Deployment, ids: seq<Id>)
    requires req.Provision?
  {
    && Obtained(req, h) == Some(target) && Deprovisioned(h) == []
    && |h| == Preamble(req) + |ids| && Granted(settings, h, Preamble(req), target.id, ids)
  }

  ghost predicate AcceptedWith(settings: Settings, req: Request, h: seq<Event>, text: string, target: Deployment,
                               ids: seq<Id>)
    requires req.Provision?
  {
    && InHand(settings, req, h, target, ids) && |ids| == |settings.ipWhitelist|
    && text == Encode(OperationData("provision", target.provisionRecipeID, ids))
  }

  /** n grants and then a failed request, all on `target`. */
  ghost predicate BrokenOffAt(settings: Settings, req: Request, h: seq<Event>, n: nat, target: Deployment)
    requires req.Provision?
  {
    && Obtained(req, h) == Some(target)
    && exists ids :: |ids| == n && BrokenOff(settings, h, Preamble(req), target.id, ids)
  }

  lemma GrantedPersists(settings: Settings, h: seq<Event>, e: Event, b: nat, target: Id, ids: seq<Id>)
    requires Granted(settings, h, b, target, ids)
    ensures Granted(settings, h + [e], b, target, ids)
  {
  }

  lemma ProceedShape(settings: Settings, req: Request, h: seq<Event>, target: Deployment, ids: seq<Id>)
    requires req.Provision? && Opening(settings, req, h) && InHand(settings, req, h, target, ids)
    ensures Shape(settings, req, h, Proceed(settings, target, ids))
  {
    if |ids| == |settings.ipWhitelist| {
      var text := Encode(OperationData("provision", target.provisionRecipeID, ids));
      assert AcceptedWith(settings, req, h, text, target, ids);
    }
  }

  lemma ShapeStepCreate(settings: Settings, req: Request, h: seq<Event>, p: Point, e: Event)
    requires req.Provision? && Belongs(settings, req, p) && Shape(settings, req, h, p)
    requires p.Creating? || p.Patching?
    requires e.call == Pending(settings, req, p) && Fits(e.call, e.reply)
    ensures Shape(settings, req, h + [e], Resume(settings, req, p, e.reply))
  {
    var h' := h + [e];
    assert h'[..|h|] == h;
    assert Deprovisioned(h') == [];
    if e.reply.GotDeployment? {
      var target := if p.Creating? then e.reply.deployment
                    else e.reply.deployment.(provisionRecipeID := p.restored.provisionRecipeID);
      ProceedShape(settings, req, h', target, []);
    }
  }

  lemma ShapeStepFind(settings: Settings, req: Request, h: seq<Event>, p: Point, e: Event)
    requires req.Provision? && Belongs(settings, req, p) && Shape(settings, req, h, p)
    requires p.FindingSource?
    requires e.call == Pending(settings, req, p) && Fits(e.call, e.reply)
    ensures Shape(settings, req, h + [e], Resume(settings, req, p, e.reply))
  {
    var h' := h + [e];
    assert h'[..|h|] == h;
    assert |h'| == 1 && h'[0] == e && Deprovisioned(h') == [];
  }

  lemma ShapeStepList(settings: Settings, req: Request, h: seq<Event>, p: Point, e: Event)
    requires req.Provision? && Belongs(settings, req, p) && Shape(settings, req, h, p)
    requires p.ListingBackups?
    requires e.call == Pending(settings, req, p) && Fits(e.call, e.reply)
    ensures Shape(settings, req, h + [e], Resume(settings, req, p, e.reply))
  {
    var h' := h + [e];
    assert h'[..|h|] == h;
    assert |h'| == 2 && h'[0] == h[0] && h'[1] == e && Deprovisioned(h') == [];
    assert SourceFound(settings, req, h');
    if e.reply.GotBackups? {
      var backups := e.reply.backups;
      NewestAmongIsNewest(backups, |backups|);
      assert backups[..|backups|] == backups;
    }
  }

  lemma ShapeStepRestore(settings: Settings, req: Request, h: seq<Event>, p: Point, e: Event)
    requires req.Provision? && Belongs(settings, req, p) && Shape(settings, req, h, p)
    requires p.Restoring?
    requires e.call == Pending(settings, req, p) && Fits(e.call, e.reply)
    ensures Shape(settings, req, h + [e], Resume(settings, req, p, e.reply))
  {
    var h' := h + [e];
    assert h'[..|h|] == h;
    assert |h'| == 3 && h'[0] == h[0] && h'[1] == h[1] && h'[2] == e && Deprovisioned(h') == [];
    assert SourceFound(settings, req, h');
    assert NewestChosen(h', p.backupID);
    assert Opening(settings, req, h');
  }

  lemma GrantedGrows(settings: Settings, h: seq<Event>, e: Event, b: nat, target: Id, ids: seq<Id>)
    requires Granted(settings, h, b, target, ids) && |h| == b + |ids| && |ids| < |settings.ipWhitelist|
    requires e.call == WhitelistCall(target, settings.ipWhitelist[|ids|])
    ensures Unusable(e.reply) ==> BrokenOff(settings, h + [e], b, target, ids)
    ensures e.reply.GotRecipe? && e.reply.recipe.id != "" ==>
              Granted(settings, h + [e], b, target, ids + [e.reply.recipe.id])
  {
    GrantedPersists(settings, h, e, b, target, ids);
  }

  lemma OneMoreRequest(settings: Settings, req: Request, h: seq<Event>, target: Deployment, ids: seq<Id>, e: Event)
    requires req.Provision? && Opening(settings, req, h) && InHand(settings, req, h, target, ids)
    requires e.call.CreateDeploymentWhitelist?
    ensures Opening(settings, req, h + [e])
    ensures Obtained(req, h + [e]) == Some(target) && Deprovisioned(h + [e]) == []
  {
    assert (h + [e])[..|h|] == h;
  }

  lemma ShapeStepBroken(settings: Settings, req: Request, h: seq<Event>, p: Point, e: Event)
    requires req.Provision? && Belongs(settings, req, p) && Shape(settings, req, h, p)
    requires p.Whitelisting? && Unusable(e.reply)
    requires e.call == Pending(settings, req, p) && Fits(e.call, e.reply)
    ensures Shape(settings, req, h + [e], Resume(settings, req, p, e.reply))
  {
    OneMoreRequest(settings, req, h, p.target, p.recipeIDs, e);
    GrantedGrows(settings, h, e, Preamble(req), p.target.id, p.recipeIDs);
    assert BrokenOffAt(settings, req, h + [e], |p.recipeIDs|, p.target);
  }

  lemma ShapeStepGranted(settings: Settings, req: Request, h: seq<Event>, p: Point, e: Event)
    requires req.Provision? && Belongs(settings, req, p) && Shape(settings, req, h, p)
    requires p.Whitelisting? && !Unusable(e.reply)
    requires e.call == Pending(settings, req, p) && Fits(e.call, e.reply)
    ensures Shape(settings, req, h + [e], Resume(settings, req, p, e.reply))
  {
    var ids := p.recipeIDs + [e.reply.recipe.id];
    OneMoreRequest(settings, req, h, p.target, p.recipeIDs, e);
    GrantedGrows(settings, h, e, Preamble(req), p.target.id, p.recipeIDs);
    assert InHand(settings, req, h + [e], p.target, ids);
    ProceedShape(settings, req, h + [e], p.target, ids);
  }

  lemma ShapeStepCompensate(settings: Settings, req: Request, h: seq<Event>, p: Point, e: Event)
    requires req.Provision? && Belongs(settings, req, p) && Shape(settings, req, h, p)
    requires p.Compensating?
    requires e.call == Pending(settings, req, p) && Fits(e.call, e.reply)
    ensures Shape(settings, req, h + [e], Resume(settings, req, p, e.reply))
  {
    var h', b, target := h + [e], Preamble(req), p.target;
    assert h'[..|h|] == h;
    assert Opening(settings, req, h');
    assert Obtained(req, h') == Some(target);
    var ids :| |ids| == |h| - b - 1 && BrokenOff(settings, h, b, target.id, ids);
    GrantedPersists(settings, h, e, b, target.id, ids);
    assert BrokenOff(settings, h', b, target.id, ids);
    assert BrokenOffAt(settings, req, h', |h'| - b - 2, target);
  }

  ghost predicate Shaped(settings: Settings, req: Request, h: seq<Event>)
    requires req.Provision?
  {
    exists p :: After(settings, req, h) == Some(p) && Shape(settings, req, h, p)
  }

  lemma ShapeStep(settings: Settings, req: Request, h: seq<Event>, e: Event)
    requires req.Provision? && Shaped(settings, req, h) && After(settings, req, h + [e]).Some?
    ensures Shaped(settings, req, h + [e])
  {
    assert (h + [e])[..|h|] == h;
    var p :| After(settings, req, h) == Some(p) && Shape(settings, req, h, p);
    match p {
      case Creating(_) => ShapeStepCreate(settings, req, h, p, e);
      case FindingSource(_) => ShapeStepFind(settings, req, h, p, e);
      case ListingBackups(_) => ShapeStepList(settings, req, h, p, e);
      case Restoring(_, _) => ShapeStepRestore(settings, req, h, p, e);
      case Patching(_) => ShapeStepCreate(settings, req, h, p, e);
      case Whitelisting(_, _) =>
        if Unusable(e.reply) {
          ShapeStepBroken(settings, req, h, p, e);
        } else {
          ShapeStepGranted(settings, req, h, p, e);
        }
      case Compensating(_, _) => ShapeStepCompensate(settings, req, h, p, e);
      case _ =>
    }
  }

  lemma ShapeBegin(settings: Settings, req: Request)
    requires req.Provision?
    ensures Shaped(settings, req, [])
  {
    assert Shape(settings, req, [], Begin(settings, req));
  }

  lemma {:induction false} ProvisionShape(settings: Settings, req: Request, h: seq<Event>)
    requires req.Provision? && After(settings, req, h).Some?
    ensures Shaped(settings, req, h)
  {
    if h == [] {
      ShapeBegin(settings, req);
    } else {
      var h0, e := h[..|h| - 1], h[|h| - 1];
      assert h == h0 + [e];
      ProvisionShape(settings, req, h0);
      ShapeStep(settings, req, h0, e);
    }
  }

  // ---------- the properties ----------

  /**
    Saga compensation: for every reply sequence and whitelist length, a Provision that is refused after obtaining a
    deployment has issued exactly one DeprovisionDeployment, as its last call, on that deployment; one that is refused
    without, and one that is accepted, have issued none. Only a run that obtained a deployment is accepted.
  */
  lemma SagaCompensation(settings: Settings, req: Request, h: seq<Event>, o: Outcome)
    requires req.Provision? && Completes(settings, req, h, o)
    ensures o.Accepted? || o.Refused?
    ensures o.Accepted? ==> Obtained(req, h).Some? && Deprovisioned(h) == []
    ensures o.Refused? && Obtained(req, h).None? ==> Deprovisioned(h) == []
    ensures o.Refused? && Obtained(req, h).Some? ==>
              && Deprovisioned(h) == [Obtained(req, h).value.id]
              && h[|h| - 1].call == DeprovisionDeployment(Obtained(req, h).value.id)
  {
    ProvisionShape(settings, req, h);
  }

  /**
    Whitelist conservation. An accepted run's operation data lists, in order, one non-empty recipe per configured
    address, each the reply to the request for that address on the obtained deployment, and the run made no other call
    after obtaining it. A refused run's requests are an exact prefix of the configured list, and only the last one was
    answered unusably.
  */
  lemma WhitelistConservation(settings: Settings, req: Request, h: seq<Event>, o: Outcome)
    requires req.Provision? && Completes(settings, req, h, o) && Obtained(req, h).Some?
    ensures o.Accepted? ==> exists ids ::
              && |ids| == |settings.ipWhitelist| && |h| == Preamble(req) + |ids|
              && Granted(settings, h, Preamble(req), Obtained(req, h).value.id, ids)
              && Decode(o.operationData)
                 == Some(OperationData("provision", Obtained(req, h).value.provisionRecipeID, ids))
    ensures o.Refused? ==> exists ids ::
              && |h| == Preamble(req) + |ids| + 2
              && BrokenOff(settings, h, Preamble(req), Obtained(req, h).value.id, ids)
  {
    ProvisionShape(settings, req, h);
    if o.Accepted? {
      var target, ids :| AcceptedWith(settings, req, h, o.operationData, target, ids);
      RoundTrip(OperationData("provision", target.provisionRecipeID, ids));
    }
  }

  lemma {:induction false} AfterPrefix(settings: Settings, req: Request, h: seq<Event>, k: nat)
    requires k <= |h| && After(settings, req, h).Some?
    ensures After(settings, req, h[..k]).Some?
    ensures k < |h| ==>
              && !After(settings, req, h[..k]).value.Done? && Fits(h[k].call, h[k].reply)
              && h[k].call == Pending(settings, req, After(settings, req, h[..k]).value)
  {
    if k < |h| {
      var h0 := h[..|h| - 1];
      AfterPrefix(settings, req, h0, k);
      assert h0[..k] == h[..k] && (k < |h0| ==> h0[k] == h[k]);
      assert k == |h0| ==> h[..k] == h0;
    } else {
      assert h[..k] == h;
    }
  }

  ghost predicate NothingRestorable(req: Request, h: seq<Event>) {
    && req.Provision? && req.parameters.RestoreFrom?
    && |h| >= 2 && h[1].reply.GotBackups?
    && forall b :: b in h[1].reply.backups ==> !b.isRestorable
  }

  /**
    Restore soundness, at any moment of any operation: a RestoreBackup is only issued by Provision, as its third call,
    on a source whose reported billing code is the requesting space and whose reported type is the plan's, with the
    newest restorable backup of the list Compose reported for it. If none was restorable, nothing follows the listing.
  */
  lemma RestoreSoundness(settings: Settings, req: Request, h: seq<Event>, k: nat)
    requires After(settings, req, h).Some? && k < |h|
    ensures h[k].call.RestoreBackup? ==>
              && req.Provision? && req.parameters.RestoreFrom? && k == 2
              && SourceFound(settings, req, h) && h[k].call.sourceID == h[0].reply.deployment.id
              && NewestChosen(h, h[k].call.backupID)
    ensures NothingRestorable(req, h) ==> |h| == 2
  {
    AfterPrefix(settings, req, h, k);
    if req.Provision? {
      ProvisionShape(settings, req, h);
      ProvisionShape(settings, req, h[..k]);
    }
  }

  /**
    An accepted Deprovision or Update has looked up its instance's deployment, made one changing call, on exactly that
    deployment, and recorded the recipe Compose reported for it, with no whitelist recipes to wait for.
  */
  lemma MaintenanceTracked(settings: Settings, req: Request, h: seq<Event>, operationData: string)
    requires (req.Deprovision? || req.Update?) && Completes(settings, req, h, Accepted(operationData))
    ensures |h| == 2 && h[0].reply.GotDeployment? && h[1].reply.GotRecipe?
    ensures h[0].call == GetDeploymentByName(InstanceName(settings.dbPrefix, req.instanceID))
    ensures var id := h[0].reply.deployment.id;
            if req.Deprovision? then h[1].call == DeprovisionDeployment(id)
            else
              && req.planID == req.previousPlanID
              && FindServicePlan(settings, req.serviceID, req.planID).Success?
              && h[1].call == SetScalings(id, FindServicePlan(settings, req.serviceID, req.planID).value.units)
    ensures Decode(operationData)
            == Some(OperationData(if req.Deprovision? then "deprovision" else "update", h[1].reply.recipe.id, []))
  {
    assert h != [];
    LookedUp(settings, req, h);
    assert h[..|h|] == h;
    Changed(settings, req, h);
    RoundTrip(OperationData(if req.Deprovision? then "deprovision" else "update", h[1].reply.recipe.id, []));
  }

  /** Deprovision and Update call Compose for the first time to look up their deployment. */
  lemma LookedUp(settings: Settings, req: Request, h: seq<Event>)
    requires (req.Deprovision? || req.Update?) && After(settings, req, h).Some? && h != []
    ensures h[0].call == GetDeploymentByName(InstanceName(settings.dbPrefix, req.instanceID))
    ensures Fits(h[0].call, h[0].reply) && Belongs(settings, req, Finding)
    ensures After(settings, req, h[..1]) == Some(Resume(settings, req, Finding, h[0].reply))
  {
    AfterPrefix(settings, req, h, 0);
    assert h[..0] == [] && h[..1] == [] + [h[0]];
    AfterOne(settings, req, [], h[0]);
  }

  /** Having found the deployment, they make one more call and are done. */
  lemma Changed(settings: Settings, req: Request, h: seq<Event>)
    requires (req.Deprovision? || req.Update?) && After(settings, req, h).Some? && |h| > 1
    ensures |h| == 2 && h[0].reply.GotDeployment?
    ensures var p := ResumeFound(settings, req, h[0].reply.deployment);
            && !p.Done? && h[1].call == Pending(settings, req, p) && Fits(h[1].call, h[1].reply)
            && After(settings, req, h) == Some(Resume(settings, req, p, h[1].reply))
  {
    LookedUp(settings, req, h);
    AfterPrefix(settings, req, h, 1);
    assert h[..2] == h[..1] + [h[1]];
    AfterOne(settings, req, h[..1], h[1]);
    if |h| > 2 {
      AfterPrefix(settings, req, h, 2);
    }
    assert h[..2] == h;
  }
}
