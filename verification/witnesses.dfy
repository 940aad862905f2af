/**
  Behaviours that exist: for every configuration and every Provision request that gets as far as creating or restoring,
  each of the ways in which a refused run can leave its deployment behind.
*/
module Witnesses {
  import opened Wrappers
  import opened ComposeApi
  import opened Operations
  import opened Interleaving
  import opened Guarantees

  function Last(ss: seq<System>): System
    requires ss != []
  {
    ss[|ss| - 1]
  }

  /** A behaviour in which the only run so far, number 0, serves req and has reached p. */
  ghost predicate Reached(settings: Settings, ss: seq<System>, req: Request, p: Point) {
    && Behaviour(settings, ss) && 0 in Last(ss).runs && Last(ss).runs[0].request == req
    && After(settings, req, Last(ss).runs[0].history) == Some(p)
  }

  /** The last state of a behaviour has a refused Provision, run 0, whose deployment is still there. */
  ghost predicate LeavesBehind(settings: Settings, ss: seq<System>, req: Request, id: Id) {
    && Behaviour(settings, ss)
    && var s := Last(ss);
       && 0 in s.runs && s.runs[0].request == req
       && (exists error :: Completes(settings, req, s.runs[0].history, Refused(error)))
       && Owned(s.world, 0, InstanceName(settings.dbPrefix, req.instanceID), id) && id in s.world.live
  }

  lemma Extended(settings: Settings, ss: seq<System>, s': System)
    requires Behaviour(settings, ss) && Next(settings, Last(ss), s')
    ensures Behaviour(settings, ss + [s'])
  {
    var ss' := ss + [s'];
    forall i: nat
      ensures StepAt(settings, ss', i)
    {
      if i + 1 < |ss| {
        assert StepAt(settings, ss, i);
      }
    }
  }

  function History(ss: seq<System>): seq<Event>
    requires ss != [] && 0 in Last(ss).runs
  {
    Last(ss).runs[0].history
  }

  /** The world a run starts in: what Compose had before any broker run. */
  lemma Started(settings: Settings, w: World, req: Request) returns (ss: seq<System>)
    requires WellFormed(w) && w.makers == map[]
    ensures Reached(settings, ss, req, Begin(settings, req)) && Last(ss).world == w && History(ss) == []
  {
    var s := System(w, map[]);
    var s' := System(w, map[0 := Run(req, [])]);
    assert Arrives(s, 0, req, s');
    assert Behaviour(settings, [s]);
    Extended(settings, [s], s');
    ss := [s] + [s'];
  }

  /** Run 0 makes its pending call and gets this reply, while the world becomes w. */
  lemma Answering(settings: Settings, ss: seq<System>, req: Request, p: Point, reply: Reply, w: World)
    returns (ss': seq<System>)
    requires Reached(settings, ss, req, p) && !p.Done? && Belongs(settings, req, p)
    requires Fits(Pending(settings, req, p), reply)
    requires Serves(Last(ss).world, 0, Pending(settings, req, p), reply, w)
    ensures Reached(settings, ss', req, Resume(settings, req, p, reply)) && Last(ss').world == w
    ensures History(ss') == History(ss) + [Event(Pending(settings, req, p), reply)]
  {
    var e := Event(Pending(settings, req, p), reply);
    var s' := Answered(Last(ss), 0, e, w);
    assert WellFormed(Last(ss).world) by {
      Reachable(settings, ss, |ss| - 1);
    }
    assert Exchanges(settings, Last(ss), 0, e, s');
    Extended(settings, ss, s');
    AfterOne(settings, req, History(ss), e);
    ss' := ss + [s'];
  }

  /** From patching or compensating, one error reply more ends the run, and the world stays as it is. */
  lemma Abandoned(settings: Settings, ss: seq<System>, req: Request, p: Point) returns (ss': seq<System>)
    requires Reached(settings, ss, req, p) && Belongs(settings, req, p) && (p.Patching? || p.Compensating?)
    ensures Behaviour(settings, ss') && Last(ss').world == Last(ss).world
    ensures 0 in Last(ss').runs && Last(ss').runs[0].request == req
    ensures exists error :: Completes(settings, req, History(ss'), Refused(error))
    ensures History(ss') == History(ss) + [Event(Pending(settings, req, p), Errors("unavailable", []))]
  {
    var reply := Errors("unavailable", []);
    assert WellFormed(Last(ss).world) by {
      Reachable(settings, ss, |ss| - 1);
    }
    ErrorsServed(settings, Last(ss).world, 0, req, p, reply);
    ss' := Answering(settings, ss, req, p, reply, Last(ss).world);
    var error := if p.Patching? then Message("unavailable") else p.error;
    assert Completes(settings, req, History(ss'), Refused(error));
  }

  const NOTHING := World(map[], {}, map[], map[], map[])

  function Made(settings: Settings, req: Request): Deployment {
    Deployment("d", InstanceName(settings.dbPrefix, req.instanceID), "", "", "p", [])
  }

  function WorldWithMade(settings: Settings, req: Request, before: World): World {
    WithMade(before, 0, InstanceName(settings.dbPrefix, req.instanceID), "d", "p", "running")
  }

  /** A deployment is created, and its first whitelist request is refused. */
  lemma ReachesCompensation(settings: Settings, req: Request) returns (ss: seq<System>)
    requires req.Provision? && Begin(settings, req).Creating? && settings.ipWhitelist != []
    ensures Reached(settings, ss, req, Compensating(Made(settings, req), Message("refused")))
    ensures Last(ss).world == WorldWithMade(settings, req, NOTHING)
  {
    var p, d, w := Begin(settings, req), Made(settings, req), WorldWithMade(settings, req, NOTHING);
    ss := Started(settings, NOTHING, req);
    CreationServed(settings, NOTHING, 0, req, p, GotDeployment(d), "d", "p", "running");
    ss := Answering(settings, ss, req, p, GotDeployment(d), w);
    ss := Answering(settings, ss, req, Whitelisting(d, []), Errors("refused", []), w);
  }

  /** Then the compensating call fails as well. */
  lemma CompensationCanFail(settings: Settings, req: Request) returns (ss: seq<System>)
    requires req.Provision? && Begin(settings, req).Creating? && settings.ipWhitelist != []
    ensures LeavesBehind(settings, ss, req, "d") && CompensationFailed(Last(ss).runs[0], "d")
  {
    ss := ReachesCompensation(settings, req);
    ss := Abandoned(settings, ss, req, Compensating(Made(settings, req), Message("refused")));
  }

  lemma RemovalServed(w: World, id: Id, recipe: Id, w': World)
    requires WellFormed(w) && id in w.live && recipe !in w.statuses
    requires w' == w.(statuses := w.statuses[recipe := "running"], purposes := w.purposes[recipe := Deleting(id)])
    ensures Removes(w, id, GotRecipe(Recipe(recipe, "running")), w')
  {
    assert Registers(w, recipe, "running", Deleting(id), w');
    assert ReportsRecipe(w, GotRecipe(Recipe(recipe, "running")), Deleting(id), w');
  }

  /** Or it is accepted, and its recipe is still running when the run ends. */
  lemma RemovalCanPend(settings: Settings, req: Request) returns (ss: seq<System>)
    requires req.Provision? && Begin(settings, req).Creating? && settings.ipWhitelist != []
    ensures LeavesBehind(settings, ss, req, "d") && RemovalPending(Last(ss).world, Last(ss).runs[0], "d")
  {
    ss := ReachesCompensation(settings, req);
    var w := Last(ss).world;
    var w' := w.(statuses := w.statuses["x" := "running"], purposes := w.purposes["x" := Deleting("d")]);
    var p, reply := Compensating(Made(settings, req), Message("refused")), GotRecipe(Recipe("x", "running"));
    RemovalServed(w, "d", "x", w');
    ss := Answering(settings, ss, req, p, reply, w');
    assert Completes(settings, req, History(ss), Refused(Message("refused")));
  }

  /** A deployment is created, but the creating call comes back with errors. */
  lemma CreationCanGoUnreported(settings: Settings, req: Request) returns (ss: seq<System>)
    requires req.Provision? && Begin(settings, req).Creating?
    ensures LeavesBehind(settings, ss, req, "d") && Unreported(Last(ss).runs[0])
  {
    var p := Begin(settings, req);
    ss := Started(settings, NOTHING, req);
    CreationServed(settings, NOTHING, 0, req, p, Errors("timeout", []), "d", "p", "running");
    ss := Answering(settings, ss, req, p, Errors("timeout", []), WorldWithMade(settings, req, NOTHING));
    assert Completes(settings, req, History(ss), Refused(Message("timeout")));
  }

  /** What a request to restore finds here: a source in its space and of its plan's type. */
  function Source(settings: Settings, req: Request): Deployment
    requires Begin(settings, req).FindingSource?
  {
    Deployment("s", InstanceName(settings.dbPrefix, req.parameters.sourceInstanceID),
               Begin(settings, req).plan.databaseType, req.spaceID, "q", [])
  }

  function WorldWithSource(source: Deployment): World {
    World(map[source.id := source.name], {source.id}, map[], map[], map[])
  }

  lemma ReachesRestoring(settings: Settings, req: Request) returns (ss: seq<System>)
    requires Begin(settings, req).FindingSource?
    ensures Reached(settings, ss, req, Restoring(Source(settings, req), "b"))
    ensures Last(ss).world == WorldWithSource(Source(settings, req)) && |History(ss)| == 2
  {
    var source, backup := Source(settings, req), Backup("b", 0, true);
    var w := WorldWithSource(source);
    ss := Started(settings, w, req);
    ss := Answering(settings, ss, req, Begin(settings, req), GotDeployment(source), w);
    assert NewestAmong([backup], 0) == None && NewestAmong([backup], 1) == Some(0);
    ss := Answering(settings, ss, req, ListingBackups(source), GotBackups([backup]), w);
  }

  /** A deployment is restored from the source's only backup, and then patching it fails. */
  lemma PatchingCanFail(settings: Settings, req: Request) returns (ss: seq<System>)
    requires req.Provision? && Begin(settings, req).FindingSource?
    ensures LeavesBehind(settings, ss, req, "d") && Unpatched(Last(ss).runs[0], "d")
  {
    var p, d := Restoring(Source(settings, req), "b"), Made(settings, req);
    ss := ReachesRestoring(settings, req);
    var w := Last(ss).world;
    CreationServed(settings, w, 0, req, p, GotDeployment(d), "d", "p", "running");
    ss := Answering(settings, ss, req, p, GotDeployment(d), WorldWithMade(settings, req, w));
    ss := Abandoned(settings, ss, req, Patching(d));
  }
}
