/** What Provision does and answers, stated like the other operations' answers: an exact account of its transcripts. */
module ProvisionAnswers {
  import opened Wrappers
  import opened Text
  import opened ComposeApi
  import opened Catalog
  import opened OperationData
  import opened Operations
  import opened Transcripts
  import opened Answers

  // ---------- from a deployment in hand to the end ----------

  /** The whitelist request for the i-th address. */
  function Allow(settings: Settings, target: Id, i: nat): Call
    requires i < |settings.ipWhitelist|
  {
    var ip := settings.ipWhitelist[i];
    CreateDeploymentWhitelist(target, ip, "Allow " + ip + " to access deployment")
  }

  predicate Usable(reply: Reply) {
    reply.GotRecipe? && reply.recipe.id != ""
  }

  /** The first n entries of t are usably answered requests, for the addresses from the m-th on. */
  ghost predicate Allowed(settings: Settings, target: Id, m: nat, t: seq<Event>, n: nat) {
    && m + n <= |settings.ipWhitelist| && n <= |t|
    && forall i :: 0 <= i < n ==> t[i].call == Allow(settings, target, m + i) && Usable(t[i].reply)
  }

  /** The recipes they were answered with. */
  function Recipes(t: seq<Event>): seq<Id>
    requires forall e :: e in t ==> e.reply.GotRecipe?
  {
    seq(|t|, i requires 0 <= i < |t| => assert t[i] in t; t[i].reply.recipe.id)
  }

  /** The error an unusable answer to a request comes to. */
  function ErrorOf(reply: Reply): BrokerError {
    match reply
    case Errors(first, others) => Message(SquashErrors(first, others))
    case Nil => Message("malformed response from Compose: no pending whitelist recipe received")
    case _ => Message("malformed response from Compose: invalid whitelist recipe ID")
  }

  /** All addresses from the m-th on are allowed, and the recipes go into the operation data after those before. */
  ghost predicate AllAllowed(settings: Settings, d: Deployment, ids: seq<Id>, t: seq<Event>, o: Outcome) {
    && |ids| + |t| == |settings.ipWhitelist| && Allowed(settings, d.id, |ids|, t, |t|)
    && o == Accepted(Encode(OperationData("provision", d.provisionRecipeID, ids + Recipes(t))))
  }

  /** The request for the i-th address is answered unusably, and the deployment is deprovisioned. */
  ghost predicate TurnedDown(settings: Settings, target: Id, i: nat, e: Event, f: Event, o: Outcome)
    requires i < |settings.ipWhitelist|
  {
    && e.call == Allow(settings, target, i) && Fits(e.call, e.reply) && !Usable(e.reply) && o == Refused(ErrorOf(e.reply))
    && f.call == DeprovisionDeployment(target) && Fits(f.call, f.reply)
  }

  /** One request is turned down; it is the last, and one deprovisioning of the deployment follows. */
  ghost predicate OneRefused(settings: Settings, d: Deployment, ids: seq<Id>, t: seq<Event>, o: Outcome) {
    && |t| >= 2 && |ids| + |t| - 2 < |settings.ipWhitelist| && Allowed(settings, d.id, |ids|, t, |t| - 2)
    && TurnedDown(settings, d.id, |ids| + |t| - 2, t[|t| - 2], t[|t| - 1], o)
  }

  ghost predicate Finishes(settings: Settings, d: Deployment, ids: seq<Id>, t: seq<Event>, o: Outcome) {
    AllAllowed(settings, d, ids, t, o) || OneRefused(settings, d, ids, t, o)
  }

  lemma AllowedStep(settings: Settings, target: Id, m: nat, t: seq<Event>, n: nat)
    requires 0 < n <= |t| && m < |settings.ipWhitelist|
    ensures Allowed(settings, target, m, t, n) <==>
              && t[0].call == Allow(settings, target, m) && Usable(t[0].reply)
              && Allowed(settings, target, m + 1, t[1..], n - 1)
  {
    if t[0].call == Allow(settings, target, m) && Usable(t[0].reply)
       && Allowed(settings, target, m + 1, t[1..], n - 1) {
      forall i | 0 <= i < n
        ensures t[i].call == Allow(settings, target, m + i) && Usable(t[i].reply)
      {
        if i > 0 {
          assert t[1..][i - 1] == t[i];
        }
      }
    }
    if Allowed(settings, target, m, t, n) {
      assert forall i :: 0 <= i < n - 1 ==> t[1..][i] == t[i + 1];
    }
  }

  lemma AllAllowedStep(settings: Settings, d: Deployment, ids: seq<Id>, t: seq<Event>, o: Outcome)
    requires |ids| < |settings.ipWhitelist| && t != []
    requires t[0].call == Allow(settings, d.id, |ids|) && Usable(t[0].reply)
    ensures AllAllowed(settings, d, ids, t, o) <==> AllAllowed(settings, d, ids + [t[0].reply.recipe.id], t[1..], o)
  {
    AllowedStep(settings, d.id, |ids|, t, |t|);
    if Allowed(settings, d.id, |ids|, t, |t|) {
      assert ids + Recipes(t) == ids + [t[0].reply.recipe.id] + Recipes(t[1..]);
    }
  }

  lemma OneRefusedStep(settings: Settings, d: Deployment, ids: seq<Id>, t: seq<Event>, o: Outcome)
    requires |ids| < |settings.ipWhitelist| && t != []
    requires t[0].call == Allow(settings, d.id, |ids|) && Usable(t[0].reply)
    ensures OneRefused(settings, d, ids, t, o) <==> OneRefused(settings, d, ids + [t[0].reply.recipe.id], t[1..], o)
  {
    if |t| > 2 {
      AllowedStep(settings, d.id, |ids|, t, |t| - 2);
      LastTwo(t);
    }
  }

  lemma LastTwo(t: seq<Event>)
    requires |t| > 2
    ensures |t[1..]| == |t| - 1 && t[1..][|t[1..]| - 2] == t[|t| - 2] && t[1..][|t[1..]| - 1] == t[|t| - 1]
  {
  }

  /** A request that was answered usably leaves it to the rest. */
  lemma FinishesStep(settings: Settings, d: Deployment, ids: seq<Id>, t: seq<Event>, o: Outcome)
    requires |ids| < |settings.ipWhitelist| && t != []
    requires t[0].call == Allow(settings, d.id, |ids|) && Usable(t[0].reply)
    ensures Finishes(settings, d, ids, t, o) <==> Finishes(settings, d, ids + [t[0].reply.recipe.id], t[1..], o)
  {
    AllAllowedStep(settings, d, ids, t, o);
    OneRefusedStep(settings, d, ids, t, o);
  }

  lemma CompensatingEnds(settings: Settings, req: Request, d: Deployment, error: BrokerError, t: seq<Event>, o: Outcome)
    requires req.Provision?
    ensures Ends(settings, req, Compensating(d, error), t, o) <==>
              && |t| == 1 && t[0].call == DeprovisionDeployment(d.id) && Fits(t[0].call, t[0].reply)
              && o == Refused(error)
  {
    if t != [] {
      assert t[1..] == [] <==> |t| == 1;
    }
  }

  lemma {:induction false} ProceedEnds(settings: Settings, req: Request, d: Deployment, ids: seq<Id>, t: seq<Event>,
                                       o: Outcome)
    requires req.Provision? && |ids| <= |settings.ipWhitelist|
    ensures Ends(settings, req, Proceed(settings, d, ids), t, o) <==> Finishes(settings, d, ids, t, o)
    decreases |settings.ipWhitelist| - |ids|
  {
    if |ids| == |settings.ipWhitelist| {
      assert t == [] ==> ids + Recipes(t) == ids;
    } else if t != [] && t[0].call == Allow(settings, d.id, |ids|) && Fits(t[0].call, t[0].reply) {
      if Usable(t[0].reply) {
        ProceedEnds(settings, req, d, ids + [t[0].reply.recipe.id], t[1..], o);
        FinishesStep(settings, d, ids, t, o);
      } else {
        UnusableEnds(settings, req, d, ids, t, o);
      }
    }
  }

  lemma UnusableEnds(settings: Settings, req: Request, d: Deployment, ids: seq<Id>, t: seq<Event>, o: Outcome)
    requires req.Provision? && |ids| < |settings.ipWhitelist|
    requires t != [] && t[0].call == Allow(settings, d.id, |ids|) && Fits(t[0].call, t[0].reply)
    requires !Usable(t[0].reply)
    ensures Ends(settings, req, Whitelisting(d, ids), t, o) <==> Finishes(settings, d, ids, t, o)
  {
    var e := ErrorOf(t[0].reply);
    assert Resume(settings, req, Whitelisting(d, ids), t[0].reply) == Compensating(d, e);
    CompensatingEnds(settings, req, d, e, t[1..], o);
    UnusableFinishes(settings, d, ids, t, o);
    assert t[1..] != [] ==> t[1..][0] == t[1];
  }

  /** An unusable answer leaves room for one more call only. */
  lemma UnusableFinishes(settings: Settings, d: Deployment, ids: seq<Id>, t: seq<Event>, o: Outcome)
    requires |ids| < |settings.ipWhitelist|
    requires t != [] && t[0].call == Allow(settings, d.id, |ids|) && Fits(t[0].call, t[0].reply)
    requires !Usable(t[0].reply)
    ensures Finishes(settings, d, ids, t, o) <==>
              && |t| == 2 && o == Refused(ErrorOf(t[0].reply))
              && t[1].call == DeprovisionDeployment(d.id) && Fits(t[1].call, t[1].reply)
  {
    if |t| > 2 {
      assert !Allowed(settings, d.id, |ids|, t, |t| - 2);
    }
  }

  // ---------- creating from scratch ----------

  /** A call that fails ends the run with its errors. */
  predicate Fails(reply: Reply, t: seq<Event>, o: Outcome)
    requires reply.Errors?
  {
    |t| == 1 && Says(o, SquashErrors(reply.first, reply.others))
  }

  ghost predicate CreateAnswer(settings: Settings, req: Request, plan: ComposeConfig, h: seq<Event>, o: Outcome)
    requires req.Provision?
  {
    && h != []
    && h[0].call == CreateDeployment(InstanceName(settings.dbPrefix, req.instanceID), settings.accountID,
                                     "aws:eu-west-1", plan.databaseType, plan.units, true, settings.clusterID,
                                     req.spaceID)
    && match h[0].reply
       case Errors(_, _) => Fails(h[0].reply, h, o)
       case Nil => |h| == 1 && Says(o, "unexpected nil deployment")
       case GotDeployment(d) => Finishes(settings, d, [], h[1..], o)
       case _ => false
  }

  lemma CreatingEnds(settings: Settings, req: Request, plan: ComposeConfig, h: seq<Event>, o: Outcome)
    requires req.Provision? && req.parameters.Blank?
    ensures Ends(settings, req, Creating(plan), h, o) <==> CreateAnswer(settings, req, plan, h, o)
  {
    if h != [] {
      assert h[1..] == [] <==> |h| == 1;
      if h[0].reply.GotDeployment? {
        ProceedEnds(settings, req, h[0].reply.deployment, [], h[1..], o);
      }
    }
  }

  // ---------- restoring ----------

  ghost predicate PatchAnswer(settings: Settings, req: Request, d: Deployment, t: seq<Event>, o: Outcome)
    requires req.Provision?
  {
    && t != [] && t[0].call == PatchDeployment(d.id, req.spaceID)
    && match t[0].reply
       case Errors(_, _) => Fails(t[0].reply, t, o)
       case GotDeployment(patched) =>
         Finishes(settings, patched.(provisionRecipeID := d.provisionRecipeID), [], t[1..], o)
       case _ => false
  }

  lemma PatchingEnds(settings: Settings, req: Request, d: Deployment, t: seq<Event>, o: Outcome)
    requires req.Provision? && req.parameters.RestoreFrom?
    ensures Ends(settings, req, Patching(d), t, o) <==> PatchAnswer(settings, req, d, t, o)
  {
    if t != [] {
      assert t[1..] == [] <==> |t| == 1;
      if t[0].reply.GotDeployment? {
        ProceedEnds(settings, req, t[0].reply.deployment.(provisionRecipeID := d.provisionRecipeID), [], t[1..], o);
      }
    }
  }

  ghost predicate RestoreAnswer(settings: Settings, req: Request, source: Deployment, backupID: Id, t: seq<Event>,
                                o: Outcome)
    requires req.Provision?
  {
    && t != []
    && t[0].call == RestoreBackup(source.id, backupID, InstanceName(settings.dbPrefix, req.instanceID),
                                  "aws:eu-west-1", true, settings.clusterID)
    && match t[0].reply
       case Errors(_, _) => Fails(t[0].reply, t, o)
       case GotDeployment(d) => PatchAnswer(settings, req, d, t[1..], o)
       case _ => false
  }

  lemma RestoringEnds(settings: Settings, req: Request, source: Deployment, backupID: Id, t: seq<Event>, o: Outcome)
    requires req.Provision? && req.parameters.RestoreFrom?
    ensures Ends(settings, req, Restoring(source, backupID), t, o) <==>
              RestoreAnswer(settings, req, source, backupID, t, o)
  {
    if t != [] {
      assert t[1..] == [] <==> |t| == 1;
      if t[0].reply.GotDeployment? {
        PatchingEnds(settings, req, t[0].reply.deployment, t[1..], o);
      }
    }
  }

  /** The newest restorable backup of the list is restored; without one the run is refused. */
  ghost predicate BackupAnswer(settings: Settings, req: Request, source: Deployment, t: seq<Event>, o: Outcome)
    requires req.Provision?
  {
    && t != [] && t[0].call == GetBackupsForDeployment(source.id)
    && match t[0].reply
       case Errors(_, _) => Fails(t[0].reply, t, o)
       case GotBackups(backups) =>
         || ((forall b :: b in backups ==> !b.isRestorable)
             && |t| == 1 && Says(o, "that instance has no restorable snapshots"))
         || (exists i: nat ::
               IsNewestRestorable(backups, i) && RestoreAnswer(settings, req, source, backups[i].id, t[1..], o))
       case _ => false
  }

  lemma NewestOnce(backups: seq<Backup>, i: nat, j: nat)
    requires IsNewestRestorable(backups, i) && IsNewestRestorable(backups, j)
    ensures i == j
  {
  }

  lemma NewestDecided(backups: seq<Backup>)
    ensures match NewestAmong(backups, |backups|)
            case None =>
              (forall b :: b in backups ==> !b.isRestorable) && forall j: nat :: !IsNewestRestorable(backups, j)
            case Some(i) =>
              && (exists b :: b in backups && b.isRestorable)
              && forall j: nat :: IsNewestRestorable(backups, j) <==> j == i
  {
    NewestAmongIsNewest(backups, |backups|);
    assert backups[..|backups|] == backups;
    match NewestAmong(backups, |backups|) {
      case None =>
      case Some(i) =>
        assert backups[i] in backups;
        forall j: nat | IsNewestRestorable(backups, j)
          ensures j == i
        {
          NewestOnce(backups, i, j);
        }
    }
  }

  lemma BackupsEnd(settings: Settings, req: Request, source: Deployment, t: seq<Event>, o: Outcome)
    requires req.Provision? && req.parameters.RestoreFrom?
    ensures Ends(settings, req, ListingBackups(source), t, o) <==> BackupAnswer(settings, req, source, t, o)
  {
    if t != [] && t[0].reply.GotBackups? {
      var backups := t[0].reply.backups;
      assert t[1..] == [] <==> |t| == 1;
      NewestDecided(backups);
      match NewestAmong(backups, |backups|) {
        case None =>
        case Some(i) => RestoringEnds(settings, req, source, backups[i].id, t[1..], o);
      }
    } else if t != [] {
      assert t[1..] == [] <==> |t| == 1;
    }
  }

  /** A source must be in the requesting space and of the plan's type. */
  ghost predicate FoundAnswer(settings: Settings, req: Request, plan: ComposeConfig, source: Deployment, h: seq<Event>,
                              o: Outcome)
    requires req.Provision? && h != []
  {
    if source.customerBillingCode != req.spaceID then
      |h| == 1 && Says(o, "you are only allowed to restore from backup to the same space")
    else if source.databaseType != plan.databaseType then
      |h| == 1 && Says(o, "you are only allowed to restore a backup from the same service type")
    else BackupAnswer(settings, req, source, h[1..], o)
  }

  /** A failed lookup of the source, of whatever kind, says that the service does not exist. */
  ghost predicate SourceAnswer(settings: Settings, req: Request, plan: ComposeConfig, h: seq<Event>, o: Outcome)
    requires req.Provision? && req.parameters.RestoreFrom?
  {
    && h != [] && Fits(h[0].call, h[0].reply)
    && h[0].call == GetDeploymentByName(InstanceName(settings.dbPrefix, req.parameters.sourceInstanceID))
    && match h[0].reply
       case GotDeployment(source) => FoundAnswer(settings, req, plan, source, h, o)
       case _ => |h| == 1 && Says(o, "service '" + req.parameters.sourceInstanceID + "' does not exist")
  }

  lemma FindingSourceEnds(settings: Settings, req: Request, plan: ComposeConfig, h: seq<Event>, o: Outcome)
    requires req.Provision? && req.parameters.RestoreFrom?
    ensures Ends(settings, req, FindingSource(plan), h, o) <==> SourceAnswer(settings, req, plan, h, o)
  {
    if h != [] && h[0].call == Pending(settings, req, FindingSource(plan)) && Fits(h[0].call, h[0].reply) {
      SourceReplied(settings, req, plan, h, o);
    }
  }

  lemma SourceReplied(settings: Settings, req: Request, plan: ComposeConfig, h: seq<Event>, o: Outcome)
    requires req.Provision? && req.parameters.RestoreFrom? && h != []
    requires h[0].call == Pending(settings, req, FindingSource(plan)) && Fits(h[0].call, h[0].reply)
    ensures Ends(settings, req, Resume(settings, req, FindingSource(plan), h[0].reply), h[1..], o) <==>
              SourceAnswer(settings, req, plan, h, o)
  {
    assert h[1..] == [] <==> |h| == 1;
    if h[0].reply.GotDeployment? {
      SourceGot(settings, req, plan, h[0].reply.deployment, h, o);
    } else {
      SourceMissed(req.parameters.sourceInstanceID, req.spaceID, plan, h[0].reply);
    }
  }

  lemma SourceGot(settings: Settings, req: Request, plan: ComposeConfig, source: Deployment, h: seq<Event>, o: Outcome)
    requires req.Provision? && req.parameters.RestoreFrom? && h != []
    ensures var p := ResumeSource(req.parameters.sourceInstanceID, req.spaceID, plan, GotDeployment(source));
            Ends(settings, req, p, h[1..], o) <==> FoundAnswer(settings, req, plan, source, h, o)
  {
    if source.customerBillingCode == req.spaceID && source.databaseType == plan.databaseType {
      assert ResumeSource(req.parameters.sourceInstanceID, req.spaceID, plan, GotDeployment(source))
             == ListingBackups(source);
      BackupsEnd(settings, req, source, h[1..], o);
    } else if source.customerBillingCode != req.spaceID {
      SourceElsewhere(settings, req, plan, source, h, o);
    } else {
      SourceOfOtherType(settings, req, plan, source, h, o);
    }
  }

  lemma SourceElsewhere(settings: Settings, req: Request, plan: ComposeConfig, source: Deployment, h: seq<Event>,
                        o: Outcome)
    requires req.Provision? && req.parameters.RestoreFrom? && h != []
    requires source.customerBillingCode != req.spaceID
    ensures var p := ResumeSource(req.parameters.sourceInstanceID, req.spaceID, plan, GotDeployment(source));
            Ends(settings, req, p, h[1..], o) <==> FoundAnswer(settings, req, plan, source, h, o)
  {
    RefuseEnds(settings, req, "you are only allowed to restore from backup to the same space", h, o);
  }

  lemma SourceOfOtherType(settings: Settings, req: Request, plan: ComposeConfig, source: Deployment, h: seq<Event>,
                          o: Outcome)
    requires req.Provision? && req.parameters.RestoreFrom? && h != []
    requires source.customerBillingCode == req.spaceID && source.databaseType != plan.databaseType
    ensures var p := ResumeSource(req.parameters.sourceInstanceID, req.spaceID, plan, GotDeployment(source));
            Ends(settings, req, p, h[1..], o) <==> FoundAnswer(settings, req, plan, source, h, o)
  {
    RefuseEnds(settings, req, "you are only allowed to restore a backup from the same service type", h, o);
  }

  lemma RefuseEnds(settings: Settings, req: Request, text: string, h: seq<Event>, o: Outcome)
    requires h != []
    ensures Ends(settings, req, Refuse(text), h[1..], o) <==> |h| == 1 && Says(o, text)
  {
    assert h[1..] == [] <==> |h| == 1;
  }

  lemma SourceMissed(sourceInstanceID: string, spaceID: string, plan: ComposeConfig, reply: Reply)
    requires !reply.GotDeployment?
    ensures ResumeSource(sourceInstanceID, spaceID, plan, reply)
            == Refuse("service '" + sourceInstanceID + "' does not exist")
  {
  }

  // ---------- the operation ----------

  /** A restore needs the name of its source as well. */
  predicate SourceNameless(req: Request)
    requires req.Provision?
  {
    req.parameters.RestoreFrom? && req.parameters.sourceInstanceID == ""
  }

  ghost predicate ProvisionAnswer(settings: Settings, req: Request, h: seq<Event>, o: Outcome)
    requires req.Provision?
  {
    if !req.asyncAllowed then h == [] && o == Refused(AsyncRequired)
    else if req.parameters.Unusable? then h == [] && Says(o, req.parameters.message)
    else if Nameless(settings, req.instanceID) then h == [] && SaysNameless(settings, o)
    else if SourceNameless(req) then h == [] && Says(o, "instanceID can't be empty")
    else
      || (h == [] && exists text :: Unplanned(settings, req.serviceID, req.planID, text) && Says(o, text))
      || (exists plan :: Planned(settings, req.serviceID, req.planID, plan)
                         && if req.parameters.Blank? then CreateAnswer(settings, req, plan, h, o)
                            else SourceAnswer(settings, req, plan, h, o))
  }

  /** What Provision does and answers, exactly. */
  lemma ProvisionExactly(settings: Settings, req: Request, h: seq<Event>, o: Outcome)
    requires req.Provision?
    ensures Completes(settings, req, h, o) <==> ProvisionAnswer(settings, req, h, o)
  {
    CompletesForwards(settings, req, h, o);
    PlanDecided(settings, req.serviceID, req.planID);
    match FindServicePlan(settings, req.serviceID, req.planID) {
      case Success(plan) =>
        if req.parameters.Blank? {
          CreatingEnds(settings, req, plan, h, o);
        } else if req.parameters.RestoreFrom? {
          FindingSourceEnds(settings, req, plan, h, o);
        }
      case Failure(e) => assert Unplanned(settings, req.serviceID, req.planID, e);
    }
  }

  /** Once a call has been made, the run no longer asks for asynchronous operations to be allowed. */
  lemma {:induction false} NotForAsync(settings: Settings, req: Request, h: seq<Event>)
    requires req.Provision? && h != [] && After(settings, req, h).Some?
    ensures var p := After(settings, req, h).value;
            (p.Done? ==> p.outcome != Refused(AsyncRequired)) && (p.Compensating? ==> p.error != AsyncRequired)
  {
    var p := After(settings, req, h[..|h| - 1]).value;
    if |h| > 1 {
      NotForAsync(settings, req, h[..|h| - 1]);
    }
    NotForAsyncStep(settings, req, p, h[|h| - 1].reply);
  }

  lemma NotForAsyncStep(settings: Settings, req: Request, p: Point, reply: Reply)
    requires req.Provision? && !p.Done? && Belongs(settings, req, p) && Fits(Pending(settings, req, p), reply)
    requires p.Compensating? ==> p.error != AsyncRequired
    ensures var q := Resume(settings, req, p, reply);
            (q.Done? ==> q.outcome != Refused(AsyncRequired)) && (q.Compensating? ==> q.error != AsyncRequired)
  {
  }

  lemma FirstCallExactly(settings: Settings, req: Request, h: seq<Event>, o: Outcome)
    requires req.Provision? && Completes(settings, req, h, o)
    ensures h == [] ==> (o == Refused(AsyncRequired) <==> !req.asyncAllowed)
    ensures h != [] <==>
              && req.asyncAllowed && !req.parameters.Unusable? && !Nameless(settings, req.instanceID)
              && !SourceNameless(req) && exists plan :: Planned(settings, req.serviceID, req.planID, plan)
  {
    ProvisionExactly(settings, req, h, o);
    PlanDecided(settings, req.serviceID, req.planID);
  }

  lemma GrantedUsable(settings: Settings, h: seq<Event>, b: nat, target: Id, ids: seq<Id>)
    requires |h| == b + |ids| && Granted(settings, h, b, target, ids)
    ensures forall j :: b <= j < |h| ==> Usable(h[j].reply)
  {
    forall j | b <= j < |h|
      ensures Usable(h[j].reply)
    {
      var i := j - b;
      assert ids[i] != "";
      assert h[b + i] == h[j];
    }
  }

  lemma AcceptedReplies(settings: Settings, req: Request, h: seq<Event>, o: Outcome)
    requires req.Provision? && Completes(settings, req, h, o) && Obtained(req, h).Some?
    ensures o.Accepted? <==>
              && |h| == Preamble(req) + |settings.ipWhitelist|
              && forall i :: Preamble(req) <= i < |h| ==> Usable(h[i].reply)
  {
    WhitelistConservation(settings, req, h, o);
    SagaCompensation(settings, req, h, o);
    var b := Preamble(req);
    if o.Accepted? {
      var ids :| |h| == b + |ids| && Granted(settings, h, b, Obtained(req, h).value.id, ids);
      GrantedUsable(settings, h, b, Obtained(req, h).value.id, ids);
    } else {
      var ids :| |h| == b + |ids| + 2 && BrokenOff(settings, h, b, Obtained(req, h).value.id, ids);
      assert !Usable(h[b + |ids|].reply);
    }
  }

  /** The guards that stand before the first call, and what it takes to be accepted after it. */
  lemma ProvisionAccepted(settings: Settings, req: Request, h: seq<Event>, o: Outcome)
    requires req.Provision? && Completes(settings, req, h, o)
    ensures o == Refused(AsyncRequired) <==> !req.asyncAllowed
    ensures h != [] <==>
              && req.asyncAllowed && !req.parameters.Unusable? && !Nameless(settings, req.instanceID)
              && !SourceNameless(req) && exists plan :: Planned(settings, req.serviceID, req.planID, plan)
    ensures o.Accepted? <==>
              && Obtained(req, h).Some? && |h| == Preamble(req) + |settings.ipWhitelist|
              && forall i :: Preamble(req) <= i < |h| ==> Usable(h[i].reply)
  {
    FirstCallExactly(settings, req, h, o);
    if h != [] {
      NotForAsync(settings, req, h);
    }
    SagaCompensation(settings, req, h, o);
    if Obtained(req, h).Some? {
      AcceptedReplies(settings, req, h, o);
    }
  }
}
