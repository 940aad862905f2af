/**
  Any number of broker operations, from both broker instances, running at once against Compose. Between any two client
  calls of a run, Compose may progress and other runs may take steps. Compose's side of a call is a relation: a call
  that is answered with errors, or with nil, may nevertheless have taken effect.
*/
module Interleaving {
  import opened Wrappers
  import opened Text
  import opened ComposeApi
  import opened OperationData
  import opened Operations
  import opened Polling
  import opened Transcripts

  // ---------- Compose ----------

  /** What a recipe is working on. */
  datatype Purpose =
    | Provisioning(deploymentID: Id)
    | Allowing(deploymentID: Id, ip: string)
    | Deleting(deploymentID: Id)
    | Maintenance

  datatype World = World(
    names: map<Id, string>,        // every deployment there has ever been, with its permanent name
    live: set<Id>,                 // the deployments that exist now
    makers: map<Id, nat>,          // which run made a deployment, for those made by a run
    statuses: Statuses,            // every recipe's current status
    purposes: map<Id, Purpose>)    // every recipe's purpose

  ghost predicate WellFormed(w: World) {
    && w.live <= w.names.Keys && w.makers.Keys <= w.names.Keys && w.purposes.Keys == w.statuses.Keys
    && RemovalsDone(w)
  }

  /** A deployment whose removal is complete is gone. */
  ghost predicate RemovalsDone(w: World) {
    forall recipe :: recipe in w.purposes && w.purposes[recipe].Deleting? ==>
      && w.purposes[recipe].deploymentID in w.names
      && (Complete(w.statuses, recipe) ==> w.purposes[recipe].deploymentID !in w.live)
  }

  /** What holds between any two moments: identifiers are not reused, and success is final. */
  ghost predicate Grows(w: World, w': World) {
    && (forall id :: id in w.names ==> id in w'.names && w'.names[id] == w.names[id])
    && (forall id :: id in w.makers ==> id in w'.makers && w'.makers[id] == w.makers[id])
    && (forall id :: id in w.purposes ==> id in w'.purposes && w'.purposes[id] == w.purposes[id])
    && (forall id :: id in w'.live && id in w.names ==> id in w.live)
    && SuccessSticks(w.statuses, w'.statuses)
  }

  ghost predicate Makes(w: World, run: nat, name: string, id: Id, recipe: Id, status: string, w': World) {
    && id !in w.names && recipe !in w.statuses
    && w' == World(w.names[id := name], w.live + {id}, w.makers[id := run],
                   w.statuses[recipe := status], w.purposes[recipe := Provisioning(id)])
  }

  ghost predicate Registers(w: World, recipe: Id, status: string, purpose: Purpose, w': World) {
    recipe !in w.statuses
    && w' == w.(statuses := w.statuses[recipe := status], purposes := w.purposes[recipe := purpose])
  }

  /** An unreported effect: none, or a recipe nobody is told about. */
  ghost predicate MayRegister(w: World, purpose: Purpose, w': World) {
    w' == w || exists recipe, status :: Registers(w, recipe, status, purpose, w')
  }

  ghost predicate ReportsRecipe(w: World, reply: Reply, purpose: Purpose, w': World) {
    reply.GotRecipe? && exists status :: Registers(w, reply.recipe.id, status, purpose, w')
  }

  ghost predicate MakesDeployment(w: World, run: nat, name: string, reply: Reply, w': World) {
    if reply.GotDeployment? then
      exists status :: Makes(w, run, name, reply.deployment.id, reply.deployment.provisionRecipeID, status, w')
    else w' == w || exists id, recipe, status :: Makes(w, run, name, id, recipe, status, w')
  }

  function Without(w: World, id: Id): World {
    w.(live := w.live - {id})
  }

  /** The deployment goes at once, or later, when the recipe for it is complete. */
  ghost predicate Removes(w: World, id: Id, reply: Reply, w': World) {
    && WellFormed(w')
    && exists w1 | w1 == w || w1 == Without(w, id) ::
         if reply.GotRecipe? then ReportsRecipe(w1, reply, Deleting(id), w') else MayRegister(w1, Deleting(id), w')
  }

  /** Compose handles a call of `run`. */
  ghost predicate Serves(w: World, run: nat, call: Call, reply: Reply, w': World) {
    match call
    case CreateDeployment(name, _, _, _, _, _, _, _) => MakesDeployment(w, run, name, reply, w')
    case RestoreBackup(_, _, name, _, _, _) => MakesDeployment(w, run, name, reply, w')
    case PatchDeployment(id, _) => w' == w && (reply.GotDeployment? ==> reply.deployment.id == id)
    case DeprovisionDeployment(id) => Removes(w, id, reply, w')
    case CreateDeploymentWhitelist(id, ip, _) =>
      if reply.GotRecipe? && reply.recipe.id != "" then ReportsRecipe(w, reply, Allowing(id, ip), w')
      else MayRegister(w, Allowing(id, ip), w')
    case SetScalings(_, _) =>
      if reply.GotRecipe? then ReportsRecipe(w, reply, Maintenance, w') else MayRegister(w, Maintenance, w')
    case GetDeploymentByName(name) =>
      && w' == w
      && (reply.GotDeployment? ==> reply.deployment.id in w.live && Known(w, name, reply.deployment.id))
    case GetBackupsForDeployment(_) => w' == w
    case GetRecipe(id) =>
      w' == w && (reply.GotRecipe? ==> id in w.statuses && reply.recipe.status == w.statuses[id])
  }

  // ---------- the system ----------

  datatype Run = Run(request: Request, history: seq<Event>)

  datatype System = System(world: World, runs: map<nat, Run>)

  ghost predicate Initial(s: System) {
    WellFormed(s.world) && s.world.makers == map[] && s.runs == map[]
  }

  /** The platform hands a request to either broker instance. */
  ghost predicate Arrives(s: System, r: nat, req: Request, s': System) {
    r !in s.runs && s' == s.(runs := s.runs[r := Run(req, [])])
  }

  /** Run r makes its pending call and gets a reply. */
  ghost predicate Exchanges(settings: Settings, s: System, r: nat, e: Event, s': System) {
    && r in s.runs
    && Allowed(settings, s.runs[r], e)
    && WellFormed(s.world) && Serves(s.world, r, e.call, e.reply, s'.world)
    && s'.runs == s.runs[r := Run(s.runs[r].request, s.runs[r].history + [e])]
  }

  ghost predicate Allowed(settings: Settings, run: Run, e: Event) {
    var p := After(settings, run.request, run.history);
    p.Some? && !p.value.Done? && e.call == Pending(settings, run.request, p.value) && Fits(e.call, e.reply)
  }

  /** Compose, or somebody else, acts: recipes progress, deployments come and go. */
  ghost predicate Drifts(s: System, s': System) {
    && WellFormed(s'.world) && Grows(s.world, s'.world)
    && s'.world.makers == s.world.makers && s'.runs == s.runs
  }

  ghost predicate Next(settings: Settings, s: System, s': System) {
    || (exists r, req :: Arrives(s, r, req, s'))
    || (exists r, e :: Exchanges(settings, s, r, e, s'))
    || Drifts(s, s')
  }

  ghost predicate StepAt(settings: Settings, ss: seq<System>, i: nat) {
    i + 1 < |ss| ==> Next(settings, ss[i], ss[i + 1])
  }

  ghost predicate Behaviour(settings: Settings, ss: seq<System>) {
    ss != [] && Initial(ss[0]) && forall i: nat :: StepAt(settings, ss, i)
  }

  // ---------- the invariant ----------

  ghost predicate Known(w: World, name: string, id: Id) {
    id in w.names && w.names[id] == name
  }

  ghost predicate Owned(w: World, run: nat, name: string, id: Id) {
    Known(w, name, id) && id in w.makers && w.makers[id] == run
  }

  /** The existing deployment a call changes. */
  function Mutates(call: Call): Option<Id> {
    match call
    case PatchDeployment(id, _) => Some(id)
    case DeprovisionDeployment(id) => Some(id)
    case CreateDeploymentWhitelist(id, _, _) => Some(id)
    case SetScalings(id, _) => Some(id)
    case _ => None
  }

  predicate Creates(call: Call) {
    call.CreateDeployment? || call.RestoreBackup?
  }

  /** What one entry of a run's history says about the world ever after. */
  ghost predicate Recorded(w: World, r: nat, name: string, e: Event) {
    && (Mutates(e.call).Some? ==> Known(w, name, Mutates(e.call).value))
    && (Creates(e.call) ==> e.call.name == name)
    && (Creates(e.call) && e.reply.GotDeployment? ==>
          && Owned(w, r, name, e.reply.deployment.id)
          && HasPurpose(w, e.reply.deployment.provisionRecipeID, Provisioning(e.reply.deployment.id)))
    && (e.call.PatchDeployment? && e.reply.GotDeployment? ==> e.reply.deployment.id == e.call.deploymentID)
    && (e.call.DeprovisionDeployment? && e.reply.GotRecipe? ==>
          HasPurpose(w, e.reply.recipe.id, Deleting(e.call.deploymentID)))
    && (e.call.CreateDeploymentWhitelist? && e.reply.GotRecipe? && e.reply.recipe.id != "" ==>
          HasPurpose(w, e.reply.recipe.id, Allowing(e.call.deploymentID, e.call.ip)))
  }

  ghost predicate HasPurpose(w: World, recipe: Id, purpose: Purpose) {
    recipe in w.purposes && w.purposes[recipe] == purpose
  }

  /** What a run's current point says about the world. */
  ghost predicate Held(w: World, r: nat, name: string, p: Point) {
    match p
    case Patching(d) => Owned(w, r, name, d.id)
    case Whitelisting(d, _) => Owned(w, r, name, d.id)
    case Compensating(d, _) => Owned(w, r, name, d.id)
    case Removing(d) => Known(w, name, d.id)
    case Scaling(d, _) => Known(w, name, d.id)
    case Polling(ids, k) => k <= |ids| && forall j :: 0 <= j < k ==> StateOf(w.statuses, ids[j]) == Succeeded
    case _ => true
  }

  /** Position of Provision's creating call. */
  function CreationEntry(req: Request): nat
    requires req.Provision?
  {
    if req.parameters.RestoreFrom? then 2 else 0
  }

  /** A run makes at most one deployment, by its creating call, and knows it if that call said so. */
  ghost predicate MadeOnly(w: World, r: nat, run: Run) {
    forall id :: id in w.makers && w.makers[id] == r ==> MadeBy(run, id)
  }

  ghost predicate MadeBy(run: Run, id: Id) {
    && run.request.Provision?
    && CreationEntry(run.request) < |run.history|
    && var reply := run.history[CreationEntry(run.request)].reply;
       reply.GotDeployment? ==> reply.deployment.id == id
  }

  ghost predicate RunInv(settings: Settings, w: World, r: nat, run: Run) {
    var name := InstanceName(settings.dbPrefix, run.request.instanceID);
    && After(settings, run.request, run.history).Some?
    && Held(w, r, name, After(settings, run.request, run.history).value)
    && (forall e :: e in run.history ==> Recorded(w, r, name, e))
    && (run.request.Provision? ==>
          forall e :: e in run.history && e.call.DeprovisionDeployment? ==> Owned(w, r, name, e.call.deploymentID))
    && MadeOnly(w, r, run)
  }

  ghost predicate Inv(settings: Settings, s: System) {
    && WellFormed(s.world)
    && (forall id :: id in s.world.makers ==> s.world.makers[id] in s.runs)
    && (forall r :: r in s.runs ==> RunInv(settings, s.world, r, s.runs[r]))
  }

  // ---------- preservation ----------

  lemma MakesGrows(w: World, run: nat, name: string, reply: Reply, w': World)
    requires WellFormed(w) && MakesDeployment(w, run, name, reply, w')
    ensures WellFormed(w') && Grows(w, w')
    ensures forall id :: id in w'.makers && id !in w.makers ==> w'.makers[id] == run
  {
  }

  lemma RegisterGrows(w: World, purpose: Purpose, w': World)
    requires WellFormed(w) && MayRegister(w, purpose, w') && !purpose.Deleting?
    ensures WellFormed(w') && Grows(w, w') && w'.makers == w.makers
  {
  }

  lemma RemovesGrows(w: World, id: Id, reply: Reply, w': World)
    requires WellFormed(w) && Removes(w, id, reply, w')
    ensures Grows(w, w') && w'.makers == w.makers
  {
  }

  /** Whatever Compose does for a call, the world only grows, and only the calling run can become a maker. */
  lemma ServesGrows(w: World, run: nat, call: Call, reply: Reply, w': World)
    requires WellFormed(w) && Serves(w, run, call, reply, w')
    ensures WellFormed(w') && Grows(w, w')
    ensures forall id :: id in w'.makers && id !in w.makers ==> w'.makers[id] == run
    ensures w'.makers == w.makers || Creates(call)
  {
    match call {
      case CreateDeployment(name, _, _, _, _, _, _, _) => MakesGrows(w, run, name, reply, w');
      case RestoreBackup(_, _, name, _, _, _) => MakesGrows(w, run, name, reply, w');
      case DeprovisionDeployment(id) => RemovesGrows(w, id, reply, w');
      case CreateDeploymentWhitelist(id, ip, _) => RegisterGrows(w, Allowing(id, ip), w');
      case SetScalings(_, _) => RegisterGrows(w, Maintenance, w');
      case _ =>
    }
  }

  lemma RecordedPersists(w: World, w': World, r: nat, name: string, e: Event)
    requires WellFormed(w) && Grows(w, w') && Recorded(w, r, name, e)
    ensures Recorded(w', r, name, e)
  {
  }

  lemma HeldPersists(w: World, w': World, r: nat, name: string, p: Point)
    requires Grows(w, w') && Held(w, r, name, p)
    ensures Held(w', r, name, p)
  {
    if p.Polling? {
      forall j | 0 <= j < p.k
        ensures StateOf(w'.statuses, p.ids[j]) == Succeeded
      {
        assert StateOf(w.statuses, p.ids[j]) == Succeeded;
      }
    }
  }

  /** A run that does not move keeps its invariant while the world grows around it. */
  lemma RunInvPersists(settings: Settings, w: World, w': World, r: nat, run: Run)
    requires WellFormed(w) && Grows(w, w') && RunInv(settings, w, r, run)
    requires forall id :: id in w'.makers && w'.makers[id] == r ==> id in w.makers
    ensures RunInv(settings, w', r, run)
  {
    var name := InstanceName(settings.dbPrefix, run.request.instanceID);
    HeldPersists(w, w', r, name, After(settings, run.request, run.history).value);
    forall e | e in run.history
      ensures Recorded(w', r, name, e)
    {
      RecordedPersists(w, w', r, name, e);
    }
  }

  /** The call a run makes is aimed at what the run holds, so its record is right from the start. */
  lemma NewRecord(settings: Settings, w: World, r: nat, req: Request, p: Point, e: Event, w': World)
    requires WellFormed(w) && Belongs(settings, req, p) && !p.Done?
    requires Held(w, r, InstanceName(settings.dbPrefix, req.instanceID), p)
    requires e.call == Pending(settings, req, p) && Fits(e.call, e.reply)
    requires Serves(w, r, e.call, e.reply, w')
    ensures Recorded(w', r, InstanceName(settings.dbPrefix, req.instanceID), e)
    ensures req.Provision? && e.call.DeprovisionDeployment? ==>
              Owned(w', r, InstanceName(settings.dbPrefix, req.instanceID), e.call.deploymentID)
  {
    ServesGrows(w, r, e.call, e.reply, w');
  }

  /** What a point that follows from a reply holds, one kind of point at a time. */
  lemma NextHeldMade(settings: Settings, w: World, r: nat, req: Request, p: Point, e: Event, w': World)
    requires WellFormed(w) && Belongs(settings, req, p) && (p.Creating? || p.Restoring? || p.Patching?)
    requires Held(w, r, InstanceName(settings.dbPrefix, req.instanceID), p)
    requires e.call == Pending(settings, req, p) && Fits(e.call, e.reply)
    requires Serves(w, r, e.call, e.reply, w')
    ensures Held(w', r, InstanceName(settings.dbPrefix, req.instanceID), Resume(settings, req, p, e.reply))
  {
  }

  lemma NextHeldWhitelist(settings: Settings, w: World, r: nat, req: Request, p: Point, e: Event, w': World)
    requires WellFormed(w) && Belongs(settings, req, p) && p.Whitelisting? && Grows(w, w')
    requires Held(w, r, InstanceName(settings.dbPrefix, req.instanceID), p)
    requires e.call == Pending(settings, req, p) && Fits(e.call, e.reply)
    ensures Held(w', r, InstanceName(settings.dbPrefix, req.instanceID), Resume(settings, req, p, e.reply))
  {
  }

  lemma NextHeldFound(settings: Settings, w: World, r: nat, req: Request, e: Event, w': World)
    requires WellFormed(w) && Belongs(settings, req, Finding)
    requires e.call == Pending(settings, req, Finding) && Fits(e.call, e.reply)
    requires Serves(w, r, e.call, e.reply, w')
    ensures Held(w', r, InstanceName(settings.dbPrefix, req.instanceID), Resume(settings, req, Finding, e.reply))
  {
  }

  lemma NextHeldPolled(settings: Settings, w: World, r: nat, req: Request, p: Point, e: Event, w': World)
    requires WellFormed(w) && Belongs(settings, req, p) && p.Polling?
    requires Held(w, r, InstanceName(settings.dbPrefix, req.instanceID), p)
    requires e.call == Pending(settings, req, p) && Fits(e.call, e.reply)
    requires Serves(w, r, e.call, e.reply, w')
    ensures Held(w', r, InstanceName(settings.dbPrefix, req.instanceID), Resume(settings, req, p, e.reply))
  {
  }

  lemma NextHeld(settings: Settings, w: World, r: nat, req: Request, p: Point, e: Event, w': World)
    requires WellFormed(w) && Belongs(settings, req, p) && !p.Done?
    requires Held(w, r, InstanceName(settings.dbPrefix, req.instanceID), p)
    requires e.call == Pending(settings, req, p) && Fits(e.call, e.reply)
    requires Serves(w, r, e.call, e.reply, w')
    ensures Held(w', r, InstanceName(settings.dbPrefix, req.instanceID), Resume(settings, req, p, e.reply))
  {
    match p {
      case Creating(_) => NextHeldMade(settings, w, r, req, p, e, w');
      case Restoring(_, _) => NextHeldMade(settings, w, r, req, p, e, w');
      case Patching(_) => NextHeldMade(settings, w, r, req, p, e, w');
      case Whitelisting(_, _) =>
        ServesGrows(w, r, e.call, e.reply, w');
        NextHeldWhitelist(settings, w, r, req, p, e, w');
      case Finding => NextHeldFound(settings, w, r, req, e, w');
      case Polling(_, _) => NextHeldPolled(settings, w, r, req, p, e, w');
      case _ =>
    }
  }

  lemma CreatingPosition(settings: Settings, req: Request, h: seq<Event>)
    requires req.Provision? && After(settings, req, h).Some?
    ensures var p := After(settings, req, h).value;
            p.Creating? || p.Restoring? ==> |h| == CreationEntry(req)
  {
    ProvisionShape(settings, req, h);
  }

  lemma NewMadeOnly(settings: Settings, w: World, r: nat, run: Run, e: Event, w': World)
    requires WellFormed(w) && MadeOnly(w, r, run) && Allowed(settings, run, e)
    requires Serves(w, r, e.call, e.reply, w')
    ensures MadeOnly(w', r, Run(run.request, run.history + [e]))
  {
    var run' := Run(run.request, run.history + [e]);
    ServesGrows(w, r, e.call, e.reply, w');
    forall id | id in w'.makers && w'.makers[id] == r
      ensures MadeBy(run', id)
    {
      if id in w.makers {
        assert MadeBy(run, id);
      } else {
        var p := After(settings, run.request, run.history).value;
        assert p.Creating? || p.Restoring?;
        CreatingPosition(settings, run.request, run.history);
        assert run'.history[CreationEntry(run.request)] == e;
      }
    }
  }

  /** The run that moves keeps its invariant. */
  lemma MovingRunInv(settings: Settings, w: World, r: nat, run: Run, e: Event, w': World)
    requires WellFormed(w) && RunInv(settings, w, r, run) && Allowed(settings, run, e)
    requires Serves(w, r, e.call, e.reply, w')
    ensures RunInv(settings, w', r, Run(run.request, run.history + [e]))
  {
    var req, h := run.request, run.history;
    var name := InstanceName(settings.dbPrefix, req.instanceID);
    var p := After(settings, req, h).value;
    ServesGrows(w, r, e.call, e.reply, w');
    AfterOne(settings, req, h, e);
    NextHeld(settings, w, r, req, p, e, w');
    NewRecord(settings, w, r, req, p, e, w');
    NewMadeOnly(settings, w, r, run, e, w');
    forall f | f in h + [e]
      ensures Recorded(w', r, name, f)
      ensures req.Provision? && f.call.DeprovisionDeployment? ==> Owned(w', r, name, f.call.deploymentID)
    {
      if f in h {
        RecordedPersists(w, w', r, name, f);
      }
    }
  }

  lemma ArrivalInv(settings: Settings, s: System, r: nat, req: Request, s': System)
    requires Inv(settings, s) && Arrives(s, r, req, s')
    ensures Inv(settings, s')
  {
    forall q | q in s'.runs
      ensures RunInv(settings, s'.world, q, s'.runs[q])
    {
      if q == r {
        assert s'.runs[q].history == [];
      }
    }
  }

  lemma ExchangeInv(settings: Settings, s: System, r: nat, e: Event, s': System)
    requires Inv(settings, s) && Exchanges(settings, s, r, e, s')
    ensures Inv(settings, s')
  {
    ServesGrows(s.world, r, e.call, e.reply, s'.world);
    forall q | q in s'.runs
      ensures RunInv(settings, s'.world, q, s'.runs[q])
    {
      if q == r {
        MovingRunInv(settings, s.world, r, s.runs[r], e, s'.world);
      } else {
        RunInvPersists(settings, s.world, s'.world, q, s.runs[q]);
      }
    }
  }

  lemma DriftInv(settings: Settings, s: System, s': System)
    requires Inv(settings, s) && Drifts(s, s')
    ensures Inv(settings, s')
  {
    forall q | q in s'.runs
      ensures RunInv(settings, s'.world, q, s'.runs[q])
    {
      RunInvPersists(settings, s.world, s'.world, q, s.runs[q]);
    }
  }

  lemma NextInv(settings: Settings, s: System, s': System)
    requires Inv(settings, s) && Next(settings, s, s')
    ensures Inv(settings, s') && Grows(s.world, s'.world)
  {
    if r, req :| Arrives(s, r, req, s') {
      ArrivalInv(settings, s, r, req, s');
    } else if r, e :| Exchanges(settings, s, r, e, s') {
      ExchangeInv(settings, s, r, e, s');
      ServesGrows(s.world, r, e.call, e.reply, s'.world);
    } else {
      DriftInv(settings, s, s');
    }
  }

  /** Every state of every behaviour satisfies the invariant. */
  lemma {:induction false} Reachable(settings: Settings, ss: seq<System>, i: nat)
    requires Behaviour(settings, ss) && i < |ss|
    ensures Inv(settings, ss[i])
  {
    if i > 0 {
      Reachable(settings, ss, i - 1);
      assert StepAt(settings, ss, i - 1);
      NextInv(settings, ss[i - 1], ss[i]);
    }
  }
}
