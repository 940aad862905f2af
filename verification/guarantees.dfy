/** What holds in every behaviour: any number of runs, any interleaving, any replies, any progress of Compose. */
module Guarantees {
  import opened Wrappers
  import opened ComposeApi
  import opened OperationData
  import opened Operations
  import opened Polling
  import opened Transcripts
  import opened Interleaving

  // ---------- isolation ----------

  /** For one prefix, different instances have different names, even though the prefix is trimmed first. */
  lemma InstanceNamesDistinct(dbPrefix: string, a: string, b: string)
    ensures InstanceName(dbPrefix, a) == InstanceName(dbPrefix, b) <==> a == b
  {
    var stem := Text.TrimSpace(dbPrefix) + "-";
    assert InstanceName(dbPrefix, a) == stem + a && InstanceName(dbPrefix, b) == stem + b;
    assert (stem + a)[|stem|..] == a && (stem + b)[|stem|..] == b;
  }

  /**
    Isolation: whatever a run has changed, it has changed on deployments bearing its own instance's name; what it has
    created bears that name; and a Provision has only ever deprovisioned deployments that the same run had made.
  */
  lemma Isolation(settings: Settings, ss: seq<System>, i: nat, r: nat, e: Event)
    requires Behaviour(settings, ss) && i < |ss| && r in ss[i].runs && e in ss[i].runs[r].history
    ensures var req, w := ss[i].runs[r].request, ss[i].world;
            var name := InstanceName(settings.dbPrefix, req.instanceID);
            && (Mutates(e.call).Some? ==> Known(w, name, Mutates(e.call).value))
            && (Creates(e.call) ==> e.call.name == name)
            && (req.Provision? && e.call.DeprovisionDeployment? ==> Owned(w, r, name, e.call.deploymentID))
  {
    Reachable(settings, ss, i);
    assert RunInv(settings, ss[i].world, r, ss[i].runs[r]);
  }

  /** Two runs that change the same deployment serve the same instance. */
  lemma InstancesNeverShare(settings: Settings, ss: seq<System>, i: nat, r: nat, e: Event, q: nat, f: Event)
    requires Behaviour(settings, ss) && i < |ss|
    requires r in ss[i].runs && e in ss[i].runs[r].history
    requires q in ss[i].runs && f in ss[i].runs[q].history
    requires Mutates(e.call).Some? && Mutates(e.call) == Mutates(f.call)
    ensures ss[i].runs[r].request.instanceID == ss[i].runs[q].request.instanceID
  {
    Isolation(settings, ss, i, r, e);
    Isolation(settings, ss, i, q, f);
    InstanceNamesDistinct(settings.dbPrefix, ss[i].runs[r].request.instanceID, ss[i].runs[q].request.instanceID);
  }

  /** Compensations of different Provision runs never meet, even when both provision the same instance. */
  lemma CompensationsDisjoint(settings: Settings, ss: seq<System>, i: nat, r: nat, e: Event, q: nat, f: Event)
    requires Behaviour(settings, ss) && i < |ss| && r != q
    requires r in ss[i].runs && e in ss[i].runs[r].history && ss[i].runs[r].request.Provision?
    requires q in ss[i].runs && f in ss[i].runs[q].history && ss[i].runs[q].request.Provision?
    requires e.call.DeprovisionDeployment? && f.call.DeprovisionDeployment?
    ensures e.call.deploymentID != f.call.deploymentID
  {
    Isolation(settings, ss, i, r, e);
    Isolation(settings, ss, i, q, f);
  }

  // ---------- what survives a failed Provision ----------

  lemma RestoredIsPatched(settings: Settings, req: Request, h: seq<Event>, o: Outcome)
    requires req.Provision? && req.parameters.RestoreFrom? && Completes(settings, req, h, o)
    requires |h| >= 3 && h[2].reply.GotDeployment?
    ensures |h| >= 4 && h[3].call == PatchDeployment(h[2].reply.deployment.id, req.spaceID)
    ensures Fits(h[3].call, h[3].reply)
  {
    ProvisionShape(settings, req, h);
    if |h| == 3 {
      AfterPrefix(settings, req, h, 2);
    } else {
      AfterPrefix(settings, req, h, 3);
    }
  }

  /** Compose made a deployment but the creating call came back with errors, or with nil. */
  predicate Unreported(run: Run)
    requires run.request.Provision?
  {
    CreationEntry(run.request) < |run.history| && !run.history[CreationEntry(run.request)].reply.GotDeployment?
  }

  /** The restored deployment was reported, and then patching it failed: the step before compensation is armed. */
  predicate Unpatched(run: Run, id: Id)
    requires run.request.Provision?
  {
    var h := run.history;
    && run.request.parameters.RestoreFrom? && |h| == 4
    && h[2].reply.GotDeployment? && h[2].reply.deployment.id == id
    && h[3].call.PatchDeployment? && h[3].reply.Errors?
  }

  /** The compensating call itself, the run's last, was answered with errors. */
  predicate CompensationFailed(run: Run, id: Id) {
    var h := run.history;
    h != [] && h[|h| - 1].call == DeprovisionDeployment(id) && h[|h| - 1].reply.Errors?
  }

  /** The compensating call was accepted, and the recipe Compose reported for it is not complete yet. */
  ghost predicate RemovalPending(w: World, run: Run, id: Id) {
    var h := run.history;
    && h != [] && h[|h| - 1].call == DeprovisionDeployment(id) && h[|h| - 1].reply.GotRecipe?
    && HasPurpose(w, h[|h| - 1].reply.recipe.id, Deleting(id))
    && !Complete(w.statuses, h[|h| - 1].reply.recipe.id)
  }

  /**
    After a refused run's compensating call, the deployment is gone, unless the call was answered with errors or its
    recipe is still to complete. Nobody waits for that recipe: a refused Provision hands out no operation data.
  */
  lemma UndoneUnlessFailed(settings: Settings, w: World, r: nat, run: Run, error: BrokerError)
    requires run.request.Provision? && WellFormed(w) && RunInv(settings, w, r, run)
    requires Completes(settings, run.request, run.history, Refused(error))
    requires Obtained(run.request, run.history).Some?
    ensures var id := Obtained(run.request, run.history).value.id;
            CompensationFailed(run, id) || RemovalPending(w, run, id) || id !in w.live
  {
    var h := run.history;
    SagaCompensation(settings, run.request, h, Refused(error));
    assert h != [];
    AfterPrefix(settings, run.request, h, |h| - 1);
    assert h[|h| - 1] in h;
  }

  ghost predicate Survives(w: World, run: Run, id: Id)
    requires run.request.Provision?
  {
    Unreported(run) || Unpatched(run, id) || CompensationFailed(run, id) || RemovalPending(w, run, id)
  }

  lemma MadeAndRefused(settings: Settings, w: World, r: nat, run: Run, error: BrokerError, id: Id)
    requires run.request.Provision? && WellFormed(w) && RunInv(settings, w, r, run)
    requires Completes(settings, run.request, run.history, Refused(error))
    requires id in w.live && MadeBy(run, id)
    ensures Survives(w, run, id)
  {
    var req, h := run.request, run.history;
    if !Unreported(run) {
      if req.parameters.RestoreFrom? {
        RestoredIsPatched(settings, req, h, Refused(error));
        assert h[3] in h;
      }
      if Obtained(req, h).Some? {
        assert Obtained(req, h).value.id == id;
        UndoneUnlessFailed(settings, w, r, run, error);
      } else {
        ProvisionShape(settings, req, h);
      }
    }
  }

  /** A deployment made by a Provision that was refused is still there only for one of these reasons. */
  lemma Survivors(settings: Settings, ss: seq<System>, i: nat, r: nat, error: BrokerError, id: Id)
    requires Behaviour(settings, ss) && i < |ss| && r in ss[i].runs
    requires ss[i].runs[r].request.Provision?
    requires Completes(settings, ss[i].runs[r].request, ss[i].runs[r].history, Refused(error))
    requires id in ss[i].world.makers && ss[i].world.makers[id] == r && id in ss[i].world.live
    ensures Survives(ss[i].world, ss[i].runs[r], id)
  {
    Reachable(settings, ss, i);
    assert RunInv(settings, ss[i].world, r, ss[i].runs[r]) && MadeBy(ss[i].runs[r], id);
    MadeAndRefused(settings, ss[i].world, r, ss[i].runs[r], error, id);
  }

  /** The state after run r got a reply and the world became w. */
  function Answered(s: System, r: nat, e: Event, w: World): System
    requires r in s.runs
  {
    System(w, s.runs[r := Run(s.runs[r].request, s.runs[r].history + [e])])
  }

  /** Errors may mean that nothing has happened. */
  lemma ErrorsServed(settings: Settings, w: World, r: nat, req: Request, p: Point, reply: Reply)
    requires WellFormed(w) && Belongs(settings, req, p) && (p.Patching? || p.Compensating?) && reply.Errors?
    ensures Serves(w, r, Pending(settings, req, p), reply, w)
  {
    if p.Compensating? {
      assert MayRegister(w, Deleting(p.target.id), w);
    }
  }

  /** The second and third reasons do occur: one error reply then ends the run with its deployment still there. */
  lemma LeftBehind(settings: Settings, s: System, r: nat, p: Point, first: string, others: seq<string>)
    requires Inv(settings, s) && r in s.runs && After(settings, s.runs[r].request, s.runs[r].history) == Some(p)
    requires p.Patching? || p.Compensating?
    ensures var run := s.runs[r];
            var id := if p.Patching? then p.restored.id else p.target.id;
            var e := Event(Pending(settings, run.request, p), Errors(first, others));
            var s' := Answered(s, r, e, s.world);
            && Exchanges(settings, s, r, e, s')
            && (exists error :: Completes(settings, run.request, s'.runs[r].history, Refused(error)))
            && Owned(s'.world, r, InstanceName(settings.dbPrefix, run.request.instanceID), id)
            && s'.world.live == s.world.live
  {
    var run := s.runs[r];
    var e := Event(Pending(settings, run.request, p), Errors(first, others));
    assert RunInv(settings, s.world, r, run);
    ErrorsServed(settings, s.world, r, run.request, p, e.reply);
    AfterOne(settings, run.request, run.history, e);
    var error := if p.Patching? then Message(SquashErrors(first, others)) else p.error;
    assert Completes(settings, run.request, run.history + [e], Refused(error));
  }

  /** The world with one more deployment, made by run r, and the recipe provisioning it. */
  function WithMade(w: World, r: nat, name: string, id: Id, recipe: Id, status: string): World {
    World(w.names[id := name], w.live + {id}, w.makers[id := r], w.statuses[recipe := status],
          w.purposes[recipe := Provisioning(id)])
  }

  /** A creating call may take effect whatever is answered, except that a deployment answered is the one made. */
  lemma CreationServed(settings: Settings, w: World, r: nat, req: Request, p: Point, reply: Reply,
                       id: Id, recipe: Id, status: string)
    requires Belongs(settings, req, p) && (p.Creating? || p.Restoring?)
    requires id !in w.names && recipe !in w.statuses
    requires reply.GotDeployment? ==> reply.deployment.id == id && reply.deployment.provisionRecipeID == recipe
    ensures var name := InstanceName(settings.dbPrefix, req.instanceID);
            && Serves(w, r, Pending(settings, req, p), reply, WithMade(w, r, name, id, recipe, status))
            && Owned(WithMade(w, r, name, id, recipe, status), r, name, id)
  {
    var name := InstanceName(settings.dbPrefix, req.instanceID);
    assert Makes(w, r, name, id, recipe, status, WithMade(w, r, name, id, recipe, status));
  }

  /** So does the first: a creating call may take effect and still come back with errors. */
  lemma LeftUnreported(settings: Settings, s: System, r: nat, p: Point, id: Id, recipe: Id, status: string,
                       first: string, others: seq<string>)
    requires Inv(settings, s) && r in s.runs && After(settings, s.runs[r].request, s.runs[r].history) == Some(p)
    requires (p.Creating? || p.Restoring?) && id !in s.world.names && recipe !in s.world.statuses
    ensures var run := s.runs[r];
            var e := Event(Pending(settings, run.request, p), Errors(first, others));
            var name := InstanceName(settings.dbPrefix, run.request.instanceID);
            var w := WithMade(s.world, r, name, id, recipe, status);
            && Exchanges(settings, s, r, e, Answered(s, r, e, w)) && id in w.live && Owned(w, r, name, id)
            && Completes(settings, run.request, run.history + [e], Refused(Message(SquashErrors(first, others))))
  {
    var run := s.runs[r];
    var e := Event(Pending(settings, run.request, p), Errors(first, others));
    AfterOne(settings, run.request, run.history, e);
    CreationServed(settings, s.world, r, run.request, p, e.reply, id, recipe, status);
  }

  // ---------- polling ----------

  /** The recipes a poll reads, in order. */
  function Tracked(operationData: string): seq<Id> {
    match Decode(operationData)
    case None => []
    case Some(data) => [data.recipeID] + data.whitelistRecipeIDs
  }

  lemma {:induction false} PollReadsTracked(settings: Settings, req: Request, h: seq<Event>)
    requires req.LastOperation? && After(settings, req, h).Some?
    ensures var p := After(settings, req, h).value;
            p.Done? || (p.Polling? && p.ids == Tracked(req.operationData))
  {
    if h != [] {
      PollReadsTracked(settings, req, h[..|h| - 1]);
    }
  }

  /** Run r makes the last read of its poll, and with it its verdict, in the step from s to s'. */
  ghost predicate LastRead(settings: Settings, s: System, s': System, r: nat, operationData: string, state: State) {
    && r in s.runs && r in s'.runs
    && s.runs[r].request.LastOperation? && s.runs[r].request.operationData == operationData
    && !Completes(settings, s.runs[r].request, s.runs[r].history, Polled(state))
    && Completes(settings, s.runs[r].request, s'.runs[r].history, Polled(state))
  }

  /**
    Linearizability of polling: a poll reads its recipes one by one while they advance, yet the verdict it returns is
    the verdict of an atomic snapshot of all of them at the moment of its last read. This holds for any number of
    recipes, and needs no more of Compose than that a completed recipe stays completed.
  */
  lemma PollLinearizable(settings: Settings, ss: seq<System>, i: nat, r: nat, operationData: string, state: State)
    requires Behaviour(settings, ss) && i + 1 < |ss|
    requires LastRead(settings, ss[i], ss[i + 1], r, operationData, state)
    ensures state == Verdict(ss[i + 1].world.statuses, Tracked(operationData))
  {
    var s, s' := ss[i], ss[i + 1];
    assert StepAt(settings, ss, i);
    var e :| Exchanges(settings, s, r, e, s');
    assert RunInv(settings, s.world, r, s.runs[r]) by {
      Reachable(settings, ss, i);
    }
    AfterOne(settings, s.runs[r].request, s.runs[r].history, e);
    LastReadVerdict(settings, s.world, r, s.runs[r], e, s'.world, state);
  }

  /** The read that ends a poll finds the frontier. */
  lemma LastReadVerdict(settings: Settings, w: World, r: nat, run: Run, e: Event, w': World, state: State)
    requires RunInv(settings, w, r, run) && run.request.LastOperation? && Allowed(settings, run, e)
    requires Serves(w, r, e.call, e.reply, w')
    requires Resume(settings, run.request, After(settings, run.request, run.history).value, e.reply)
             == Done(Polled(state))
    ensures state == Verdict(w'.statuses, Tracked(run.request.operationData))
  {
    PollReadsTracked(settings, run.request, run.history);
    var p := After(settings, run.request, run.history).value;
    assert p.Polling? && e.call == GetRecipe(p.ids[p.k]) && e.reply.GotRecipe?;
    assert state == StateOf(w.statuses, p.ids[p.k]);
    ReadSettles(w.statuses, p.ids, p.k);
  }

  lemma LastReadStatus(settings: Settings, w: World, r: nat, run: Run, e: Event, w': World, state: State)
    requires RunInv(settings, w, r, run) && run.request.LastOperation? && Allowed(settings, run, e)
    requires Serves(w, r, e.call, e.reply, w')
    requires Resume(settings, run.request, After(settings, run.request, run.history).value, e.reply)
             == Done(Polled(state))
    ensures Told(w'.statuses, Tracked(run.request.operationData), state)
  {
    PollReadsTracked(settings, run.request, run.history);
    var p := After(settings, run.request, run.history).value;
    assert p.Polling? && e.call == GetRecipe(p.ids[p.k]) && e.reply.GotRecipe?;
    forall j | 0 <= j < p.k
      ensures Complete(w.statuses, p.ids[j])
    {
      assert StateOf(w.statuses, p.ids[j]) == Succeeded;
    }
    ToldByOne(w.statuses, p.ids, p.k, state);
  }

  /**
    What a poll reports, in Compose's own words: at its last read, succeeded iff every tracked recipe is complete;
    otherwise the first one that is not decides, in progress iff its status is "running" or "waiting", and failed iff it
    is anything else, be it a status nobody has heard of.
  */
  lemma PollReportsStatus(settings: Settings, ss: seq<System>, i: nat, r: nat, operationData: string, state: State)
    requires Behaviour(settings, ss) && i + 1 < |ss|
    requires LastRead(settings, ss[i], ss[i + 1], r, operationData, state)
    ensures Told(ss[i + 1].world.statuses, Tracked(operationData), state)
  {
    var s, s' := ss[i], ss[i + 1];
    assert StepAt(settings, ss, i);
    var e :| Exchanges(settings, s, r, e, s');
    assert RunInv(settings, s.world, r, s.runs[r]) by {
      Reachable(settings, ss, i);
    }
    AfterOne(settings, s.runs[r].request, s.runs[r].history, e);
    LastReadStatus(settings, s.world, r, s.runs[r], e, s'.world, state);
  }

  lemma StepGrows(settings: Settings, ss: seq<System>, i: nat)
    requires Behaviour(settings, ss) && i + 1 < |ss|
    ensures Grows(ss[i].world, ss[i + 1].world)
  {
    Reachable(settings, ss, i);
    assert StepAt(settings, ss, i);
    NextInv(settings, ss[i], ss[i + 1]);
  }

  lemma {:induction false} SuccessSettles(settings: Settings, ss: seq<System>, i: nat, j: nat)
    requires Behaviour(settings, ss) && i <= j < |ss|
    ensures SuccessSticks(ss[i].world.statuses, ss[j].world.statuses)
  {
    if i < j {
      SuccessSettles(settings, ss, i, j - 1);
      StepGrows(settings, ss, j - 1);
      SuccessTransitively(ss[i].world.statuses, ss[j - 1].world.statuses, ss[j].world.statuses);
    }
  }

  /** In this step some poll with this operation data reads its verdict. */
  ghost predicate Reports(settings: Settings, s: System, s': System, operationData: string, state: State) {
    exists r :: LastRead(settings, s, s', r, operationData, state)
  }

  lemma ReportIsVerdict(settings: Settings, ss: seq<System>, i: nat, operationData: string, state: State)
    requires Behaviour(settings, ss) && i + 1 < |ss| && Reports(settings, ss[i], ss[i + 1], operationData, state)
    ensures state == Verdict(ss[i + 1].world.statuses, Tracked(operationData))
  {
    var r :| LastRead(settings, ss[i], ss[i + 1], r, operationData, state);
    PollLinearizable(settings, ss, i, r, operationData, state);
  }

  lemma BothVerdicts(settings: Settings, ss: seq<System>, operationData: string,
                     i: nat, first: State, j: nat, second: State)
    requires Behaviour(settings, ss) && i + 1 < |ss| && j + 1 < |ss|
    requires Reports(settings, ss[i], ss[i + 1], operationData, first)
    requires Reports(settings, ss[j], ss[j + 1], operationData, second)
    ensures first == Verdict(ss[i + 1].world.statuses, Tracked(operationData))
    ensures second == Verdict(ss[j + 1].world.statuses, Tracked(operationData))
  {
    ReportIsVerdict(settings, ss, i, operationData, first);
    ReportIsVerdict(settings, ss, j, operationData, second);
  }

  lemma MomentsConsistent(settings: Settings, ss: seq<System>, i: nat, j: nat, ids: seq<Id>)
    requires Behaviour(settings, ss) && i <= j < |ss|
    ensures var before, after := ss[i].world.statuses, ss[j].world.statuses;
            Consistent(before, after, ids, Verdict(before, ids), Verdict(after, ids))
  {
    SuccessSettles(settings, ss, i, j);
    SnapshotsConsistent(ss[i].world.statuses, ss[j].world.statuses, ids);
  }

  /**
    Of two polls with the same operation data, by whichever broker instance: the position of the first unfinished recipe
    never moves back, a reported success is never retracted, and a reported failure is retracted only by that one
    recipe, which then is in progress, or has succeeded and leaves the verdict to those after it. Once no recipe is in
    progress the verdict is "all succeeded, else failed", whatever their order.
  */
  lemma PollsConsistent(settings: Settings, ss: seq<System>, operationData: string, i: nat, j: nat)
    requires Behaviour(settings, ss) && i <= j && j + 1 < |ss|
    ensures var s, s', t, t' := ss[i], ss[i + 1], ss[j], ss[j + 1];
            forall first, second ::
              Reports(settings, s, s', operationData, first) && Reports(settings, t, t', operationData, second) ==>
                Consistent(s'.world.statuses, t'.world.statuses, Tracked(operationData), first, second)
  {
    var s, s', t, t' := ss[i], ss[i + 1], ss[j], ss[j + 1];
    MomentsConsistent(settings, ss, i + 1, j + 1, Tracked(operationData));
    forall first, second
      | Reports(settings, s, s', operationData, first) && Reports(settings, t, t', operationData, second)
      ensures Consistent(s'.world.statuses, t'.world.statuses, Tracked(operationData), first, second)
    {
      BothVerdicts(settings, ss, operationData, i, first, j, second);
    }
  }

  lemma MomentsStable(settings: Settings, ss: seq<System>, i: nat, j: nat, ids: seq<Id>)
    requires Behaviour(settings, ss) && i <= j < |ss|
    requires FailureSticks(ss[i].world.statuses, ss[j].world.statuses)
    ensures var before, after := ss[i].world.statuses, ss[j].world.statuses;
            Stable(before, after, ids, Verdict(before, ids), Verdict(after, ids))
  {
    SuccessSettles(settings, ss, i, j);
    VerdictStable(ss[i].world.statuses, ss[j].world.statuses, ids);
  }

  /**
    Verdict stability: if moreover no recipe that had failed at the first of the two moments has come back by the
    second, no final verdict is retracted, and no more recipes are in progress than before.
  */
  lemma PollsNeverRetract(settings: Settings, ss: seq<System>, operationData: string, i: nat, j: nat)
    requires Behaviour(settings, ss) && i <= j && j + 1 < |ss|
    requires FailureSticks(ss[i + 1].world.statuses, ss[j + 1].world.statuses)
    ensures var s, s', t, t' := ss[i], ss[i + 1], ss[j], ss[j + 1];
            forall first, second ::
              Reports(settings, s, s', operationData, first) && Reports(settings, t, t', operationData, second) ==>
                Stable(s'.world.statuses, t'.world.statuses, Tracked(operationData), first, second)
  {
    var s, s', t, t' := ss[i], ss[i + 1], ss[j], ss[j + 1];
    MomentsStable(settings, ss, i + 1, j + 1, Tracked(operationData));
    forall first, second
      | Reports(settings, s, s', operationData, first) && Reports(settings, t, t', operationData, second)
      ensures Stable(s'.world.statuses, t'.world.statuses, Tracked(operationData), first, second)
    {
      BothVerdicts(settings, ss, operationData, i, first, j, second);
    }
  }

  // ---------- from Provision to the poll ----------

  /** The run has completed, with whatever outcome. */
  ghost predicate Over(settings: Settings, run: Run) {
    exists o :: Completes(settings, run.request, run.history, o)
  }

  lemma DoneRunStays(settings: Settings, s: System, s': System, r: nat)
    requires Next(settings, s, s') && r in s.runs && Over(settings, s.runs[r])
    ensures r in s'.runs && s'.runs[r] == s.runs[r]
  {
    if q, req :| Arrives(s, q, req, s') {
    } else if q, e :| Exchanges(settings, s, q, e, s') {
      assert q != r;
    }
  }

  lemma StepHolds(settings: Settings, ss: seq<System>, i: nat)
    requires Behaviour(settings, ss) && i + 1 < |ss|
    ensures Next(settings, ss[i], ss[i + 1])
  {
    assert StepAt(settings, ss, i);
  }

  lemma {:induction false} RunsPersist(settings: Settings, ss: seq<System>, i: nat, j: nat, r: nat)
    requires Behaviour(settings, ss) && i <= j < |ss| && r in ss[i].runs && Over(settings, ss[i].runs[r])
    ensures r in ss[j].runs && ss[j].runs[r] == ss[i].runs[r]
  {
    if i < j {
      RunsPersist(settings, ss, i, j - 1, r);
      StepHolds(settings, ss, j - 1);
      DoneRunStays(settings, ss[j - 1], ss[j], r);
    }
  }

  /** The whitelist recipes among them. */
  function Allowances(operationData: string): seq<Id> {
    match Decode(operationData)
    case None => []
    case Some(data) => data.whitelistRecipeIDs
  }

  /** The recipes an accepted Provision recorded are the ones Compose runs for its deployment and its addresses. */
  ghost predicate Tracks(settings: Settings, w: World, r: nat, name: string, operationData: string,
                         target: Id, provisionRecipe: Id) {
    var ids := Allowances(operationData);
    && Tracked(operationData) == [provisionRecipe] + ids
    && Owned(w, r, name, target)
    && HasPurpose(w, provisionRecipe, Provisioning(target))
    && |ids| == |settings.ipWhitelist|
    && forall k :: 0 <= k < |ids| ==> HasPurpose(w, ids[k], Allowing(target, settings.ipWhitelist[k]))
  }

  lemma GrantsAllow(settings: Settings, w: World, r: nat, run: Run, target: Id, ids: seq<Id>)
    requires run.request.Provision? && RunInv(settings, w, r, run)
    requires Granted(settings, run.history, Preamble(run.request), target, ids)
    ensures forall k :: 0 <= k < |ids| ==> HasPurpose(w, ids[k], Allowing(target, settings.ipWhitelist[k]))
  {
    forall k | 0 <= k < |ids|
      ensures HasPurpose(w, ids[k], Allowing(target, settings.ipWhitelist[k]))
    {
      assert run.history[Preamble(run.request) + k] in run.history;
    }
  }

  /** The deployment a run obtained is its own, and the recipe it carries is the one provisioning it. */
  lemma ObtainedIsOwned(settings: Settings, w: World, r: nat, run: Run)
    requires run.request.Provision? && RunInv(settings, w, r, run) && Obtained(run.request, run.history).Some?
    ensures var d := Obtained(run.request, run.history).value;
            && Owned(w, r, InstanceName(settings.dbPrefix, run.request.instanceID), d.id)
            && HasPurpose(w, d.provisionRecipeID, Provisioning(d.id))
  {
    var req, h := run.request, run.history;
    ProvisionShape(settings, req, h);
    assert h[CreationEntry(req)] in h;
    if req.parameters.RestoreFrom? {
      assert h[3] in h;
    }
  }

  /** The tracked recipes of a run that was accepted, in any later world. */
  lemma AcceptedTracks(settings: Settings, w: World, r: nat, run: Run, operationData: string)
    requires run.request.Provision? && RunInv(settings, w, r, run)
    requires Completes(settings, run.request, run.history, Accepted(operationData))
    ensures Obtained(run.request, run.history).Some?
    ensures var d := Obtained(run.request, run.history).value;
            Tracks(settings, w, r, InstanceName(settings.dbPrefix, run.request.instanceID), operationData,
                   d.id, d.provisionRecipeID)
  {
    var req, h := run.request, run.history;
    SagaCompensation(settings, req, h, Accepted(operationData));
    WhitelistConservation(settings, req, h, Accepted(operationData));
    ObtainedIsOwned(settings, w, r, run);
    var d := Obtained(req, h).value;
    var ids :| |ids| == |settings.ipWhitelist| && |h| == Preamble(req) + |ids|
        && Granted(settings, h, Preamble(req), d.id, ids)
        && Decode(operationData) == Some(OperationData("provision", d.provisionRecipeID, ids));
    GrantsAllow(settings, w, r, run, d.id, ids);
  }

  /**
    From Provision to the poll: polling with the operation data of an accepted Provision, at any later time and by
    either broker instance, reports success iff at the moment of its last read the recipe provisioning that run's
    deployment is complete and so is, for every configured address, the recipe allowing it there. After a restore the
    provisioning recipe is the one RestoreBackup reported.
  */
  lemma ProvisionThenPoll(settings: Settings, ss: seq<System>, i: nat, r: nat, operationData: string,
                          j: nat, q: nat, state: State)
    requires Behaviour(settings, ss) && i <= j && j + 1 < |ss|
    requires r in ss[i].runs && ss[i].runs[r].request.Provision?
    requires Completes(settings, ss[i].runs[r].request, ss[i].runs[r].history, Accepted(operationData))
    requires LastRead(settings, ss[j], ss[j + 1], q, operationData, state)
    ensures Obtained(ss[i].runs[r].request, ss[i].runs[r].history).Some?
    ensures var d := Obtained(ss[i].runs[r].request, ss[i].runs[r].history).value;
            var name := InstanceName(settings.dbPrefix, ss[i].runs[r].request.instanceID);
            var w, ids := ss[j + 1].world, Allowances(operationData);
            && Tracks(settings, w, r, name, operationData, d.id, d.provisionRecipeID)
            && (state == Succeeded <==>
                  && Complete(w.statuses, d.provisionRecipeID)
                  && forall k :: 0 <= k < |ids| ==> Complete(w.statuses, ids[k]))
  {
    var run, w := ss[i].runs[r], ss[j + 1].world;
    RunsPersist(settings, ss, i, j + 1, r);
    assert RunInv(settings, w, r, run) by {
      Reachable(settings, ss, j + 1);
    }
    AcceptedTracks(settings, w, r, run, operationData);
    PollLinearizable(settings, ss, j, q, operationData, state);
    VerdictSucceeded(w.statuses, Obtained(run.request, run.history).value.provisionRecipeID, Allowances(operationData));
  }

  lemma VerdictSucceeded(statuses: Statuses, first: Id, ids: seq<Id>)
    ensures Verdict(statuses, [first] + ids) == Succeeded <==>
            Complete(statuses, first) && forall k :: 0 <= k < |ids| ==> Complete(statuses, ids[k])
  {
    var all := [first] + ids;
    if Complete(statuses, first) && forall k :: 0 <= k < |ids| ==> Complete(statuses, ids[k]) {
      FrontierIs(statuses, all, |all|);
    } else {
      assert forall k :: 0 <= k < |ids| ==> all[k + 1] == ids[k];
      assert all[0] == first;
    }
  }

  // ---------- from Deprovision to the poll ----------

  /** An accepted Deprovision asked for the removal of a deployment of its own name, by the recipe its data tracks. */
  lemma DeprovisionTracks(settings: Settings, w: World, r: nat, run: Run, operationData: string)
    requires run.request.Deprovision? && RunInv(settings, w, r, run)
    requires Completes(settings, run.request, run.history, Accepted(operationData))
    ensures |run.history| == 2 && run.history[0].reply.GotDeployment? && run.history[1].reply.GotRecipe?
    ensures var id, recipe := run.history[0].reply.deployment.id, run.history[1].reply.recipe.id;
            && Known(w, InstanceName(settings.dbPrefix, run.request.instanceID), id)
            && HasPurpose(w, recipe, Deleting(id)) && Tracked(operationData) == [recipe]
  {
    MaintenanceTracked(settings, run.request, run.history, operationData);
    assert run.history[1] in run.history;
  }

  /**
    From Deprovision to the poll: when polling with the operation data of an accepted Deprovision reports success, at
    any later time and by either broker instance, the deployment that the run had found for its instance is gone.
  */
  lemma DeprovisionThenPoll(settings: Settings, ss: seq<System>, i: nat, r: nat, operationData: string, j: nat, q: nat)
    requires Behaviour(settings, ss) && i <= j && j + 1 < |ss|
    requires r in ss[i].runs && ss[i].runs[r].request.Deprovision?
    requires Completes(settings, ss[i].runs[r].request, ss[i].runs[r].history, Accepted(operationData))
    requires LastRead(settings, ss[j], ss[j + 1], q, operationData, Succeeded)
    ensures ss[i].runs[r].history != [] && ss[i].runs[r].history[0].reply.GotDeployment?
    ensures ss[i].runs[r].history[0].reply.deployment.id !in ss[j + 1].world.live
  {
    var run, w := ss[i].runs[r], ss[j + 1].world;
    RunsPersist(settings, ss, i, j + 1, r);
    assert RunInv(settings, w, r, run) && WellFormed(w) by {
      Reachable(settings, ss, j + 1);
    }
    DeprovisionTracks(settings, w, r, run, operationData);
    PollLinearizable(settings, ss, j, q, operationData, Succeeded);
    var recipe := run.history[1].reply.recipe.id;
    VerdictSucceeded(w.statuses, recipe, []);
    assert [recipe] + [] == [recipe];
  }

  // ---------- operations that only read ----------

  predicate OnlyReads(req: Request) {
    req.Bind? || req.Unbind? || req.LastOperation?
  }

  /** Bind and Unbind, up to the engine, and LastOperation leave Compose as it is, whatever they are answered. */
  lemma ReadersLeaveWorld(settings: Settings, s: System, r: nat, e: Event, s': System)
    requires Exchanges(settings, s, r, e, s') && OnlyReads(s.runs[r].request)
    ensures s'.world == s.world && Mutates(e.call).None? && !Creates(e.call)
  {
  }
}
