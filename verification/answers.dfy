/**
  What every operation answers, stated on the request, the settings and Compose's replies alone. Each statement is an
  equivalence: a transcript and an outcome are those of a completed operation iff they are as described here.
*/
module Answers {
  import opened Wrappers
  import opened Text
  import opened ComposeApi
  import opened Catalog
  import opened OperationData
  import opened Operations
  import opened Transcripts

  // ---------- a run, forwards ----------

  /** From p on, the entries t are what is said to Compose, and o is what is returned. */
  ghost predicate Ends(settings: Settings, req: Request, p: Point, t: seq<Event>, o: Outcome)
    requires Belongs(settings, req, p)
    decreases |t|
  {
    if p.Done? then t == [] && o == p.outcome
    else
      && t != [] && t[0].call == Pending(settings, req, p) && Fits(t[0].call, t[0].reply)
      && Ends(settings, req, Resume(settings, req, p, t[0].reply), t[1..], o)
  }

  lemma {:induction false} EndsFrom(settings: Settings, req: Request, h: seq<Event>, k: nat, o: Outcome)
    requires k <= |h| && After(settings, req, h[..k]).Some?
    ensures Completes(settings, req, h, o) <==> Ends(settings, req, After(settings, req, h[..k]).value, h[k..], o)
    decreases |h| - k
  {
    var p := After(settings, req, h[..k]).value;
    if k == |h| {
      assert h[..k] == h;
    } else if !p.Done? && h[k].call == Pending(settings, req, p) && Fits(h[k].call, h[k].reply) {
      AfterNext(settings, req, h, k);
      assert h[k..][1..] == h[k + 1..];
      EndsFrom(settings, req, h, k + 1, o);
    } else {
      StuckNeverCompletes(settings, req, h, k, o);
    }
  }

  lemma AfterNext(settings: Settings, req: Request, h: seq<Event>, k: nat)
    requires k < |h| && After(settings, req, h[..k]).Some? && !After(settings, req, h[..k]).value.Done?
    requires h[k].call == Pending(settings, req, After(settings, req, h[..k]).value) && Fits(h[k].call, h[k].reply)
    ensures After(settings, req, h[..k + 1])
            == Some(Resume(settings, req, After(settings, req, h[..k]).value, h[k].reply))
  {
    assert h[..k + 1] == h[..k] + [h[k]];
    AfterOne(settings, req, h[..k], h[k]);
  }

  /** Where an entry does not fit the point reached, the transcript is none of the operation's. */
  lemma StuckNeverCompletes(settings: Settings, req: Request, h: seq<Event>, k: nat, o: Outcome)
    requires k < |h| && After(settings, req, h[..k]).Some?
    requires var p := After(settings, req, h[..k]).value;
             p.Done? || h[k].call != Pending(settings, req, p) || !Fits(h[k].call, h[k].reply)
    ensures !Completes(settings, req, h, o)
  {
    if After(settings, req, h).Some? {
      AfterPrefix(settings, req, h, k);
    }
  }

  lemma CompletesForwards(settings: Settings, req: Request, h: seq<Event>, o: Outcome)
    ensures Completes(settings, req, h, o) <==> Ends(settings, req, Begin(settings, req), h, o)
  {
    assert h[..0] == [] && h[0..] == h;
    EndsFrom(settings, req, h, 0, o);
  }

  // ---------- names and errors ----------

  /** t is s without the spaces around it. */
  ghost predicate Trimmed(s: string, t: string) {
    exists i: nat, j: nat | i <= j <= |s| :: TrimmedAt(s, i, j) && t == s[i..j]
  }

  predicate TrimmedAt(s: string, i: nat, j: nat)
    requires i <= j <= |s|
  {
    && (forall k :: 0 <= k < i ==> IsSpace(s[k])) && (forall k :: j <= k < |s| ==> IsSpace(s[k]))
    && (i < j ==> !IsSpace(s[i]) && !IsSpace(s[j - 1]))
  }

  lemma {:induction false} TrimSpaceAt(s: string, i: nat, j: nat)
    requires i <= j <= |s| && TrimmedAt(s, i, j)
    ensures TrimSpace(s) == s[i..j]
    decreases |s|
  {
    if i > 0 {
      TrimSpaceAt(s[1..], i - 1, j - 1);
      assert s[1..][i - 1..j - 1] == s[i..j];
    } else if j < |s| {
      if i == j && IsSpace(s[0]) {
        TrimSpaceAt(s[1..], 0, 0);
      } else {
        TrimSpaceAt(s[..|s| - 1], i, j);
        assert s[..|s| - 1][i..j] == s[i..j];
      }
    } else {
      assert s[i..j] == s;
    }
  }

  /** A deployment is named by the prefix without the spaces around it, a dash, and the instance ID. */
  lemma InstanceNameExactly(dbPrefix: string, trimmed: string, instanceID: string)
    requires Trimmed(dbPrefix, trimmed)
    ensures InstanceName(dbPrefix, instanceID) == trimmed + "-" + instanceID
  {
    var i: nat, j: nat :| i <= j <= |dbPrefix| && TrimmedAt(dbPrefix, i, j) && trimmed == dbPrefix[i..j];
    TrimSpaceAt(dbPrefix, i, j);
  }

  /** Where the k-th error starts in a list of errors that is joined by a semicolon and a space. */
  function Offset(errors: seq<string>, k: nat): nat
    requires k <= |errors|
  {
    if k == 0 then 0 else Offset(errors, k - 1) + |errors[k - 1]| + 2
  }

  lemma {:induction false} OffsetStep(errors: seq<string>, k: nat)
    requires 0 < k <= |errors|
    ensures Offset(errors, k) == |errors[0]| + 2 + Offset(errors[1..], k - 1)
  {
    if k > 1 {
      OffsetStep(errors, k - 1);
    }
  }

  /** The k-th error stands at its place in the text, with a semicolon and a space after it, or with nothing. */
  predicate StandsAt(text: string, errors: seq<string>, k: nat)
    requires k < |errors|
  {
    var start, end := Offset(errors, k), Offset(errors, k) + |errors[k]|;
    && end <= |text| && text[start..end] == errors[k]
    && (if k + 1 == |errors| then end == |text| else end + 2 <= |text| && text[end..end + 2] == "; ")
  }

  /** All errors are passed on, in order. */
  lemma {:induction false} SquashedExactly(first: string, others: seq<string>, k: nat)
    requires k <= |others|
    ensures StandsAt(SquashErrors(first, others), [first] + others, k)
    decreases |others|
  {
    if others != [] {
      SquashedApart(first, others[0], others[1..]);
      assert others == [others[0]] + others[1..];
      if k > 0 {
        SquashedExactly(others[0], others[1..], k - 1);
        OffsetStep([first] + others, k);
        StandsLater(SquashErrors(first, others), SquashErrors(others[0], others[1..]), first, others, k);
      }
    }
  }

  lemma SquashedApart(first: string, second: string, others: seq<string>)
    ensures var text, n := SquashErrors(first, [second] + others), |first|;
            && text == first + "; " + SquashErrors(second, others)
            && text[..n] == first && text[n..n + 2] == "; " && text[n + 2..] == SquashErrors(second, others)
  {
    assert ([second] + others)[1..] == others;
    Parts(first, "; ", SquashErrors(second, others));
  }

  lemma Parts(a: string, b: string, c: string)
    ensures (a + b + c)[..|a|] == a && (a + b + c)[|a|..|a| + |b|] == b && (a + b + c)[|a| + |b|..] == c
  {
  }

  /** What stands in the rest of the text stands in the whole. */
  lemma StandsLater(text: string, rest: string, first: string, others: seq<string>, k: nat)
    requires |first| + 2 <= |text| && text[|first| + 2..] == rest
    requires 0 < k <= |others| && Offset([first] + others, k) == |first| + 2 + Offset(others, k - 1)
    requires StandsAt(rest, others, k - 1)
    ensures StandsAt(text, [first] + others, k)
  {
    var n, start, end := |first| + 2, Offset(others, k - 1), Offset(others, k - 1) + |others[k - 1]|;
    assert ([first] + others)[k] == others[k - 1];
    Shifted(text, rest, n, start, end);
    if k < |others| {
      Shifted(text, rest, n, end, end + 2);
    }
  }

  lemma Shifted(text: string, rest: string, n: nat, i: nat, j: nat)
    requires n <= |text| && text[n..] == rest && i <= j <= |rest|
    ensures text[n + i..n + j] == rest[i..j]
  {
    assert text[n..][i..j] == text[n + i..n + j];
  }

  predicate Says(o: Outcome, text: string) {
    o == Refused(Message(text))
  }

  /** An operation that needs a name is refused before any call where the prefix or the instance ID is empty. */
  predicate Nameless(settings: Settings, instanceID: string) {
    settings.dbPrefix == "" || instanceID == ""
  }

  predicate SaysNameless(settings: Settings, o: Outcome) {
    Says(o, if settings.dbPrefix == "" then "dbPrefix can't be empty" else "instanceID can't be empty")
  }

  // ---------- looking up the instance ----------

  /** Compose's way of saying that there is no such deployment. */
  predicate Missing(reply: Reply) {
    reply.Nil? || (reply.Errors? && Contains(reply.first, "deployment not found"))
  }

  /** The first call looks the instance up by its name. */
  ghost predicate LooksUp(settings: Settings, req: Request, h: seq<Event>) {
    && h != [] && Fits(h[0].call, h[0].reply)
    && h[0].call == GetDeploymentByName(InstanceName(settings.dbPrefix, req.instanceID))
  }

  /** What a lookup that found nothing is answered with. */
  predicate NotReached(reply: Reply, o: Outcome) {
    if Missing(reply) then o == Refused(InstanceDoesNotExist)
    else reply.Errors? && Says(o, SquashErrors(reply.first, reply.others))
  }

  lemma FindingEnds(settings: Settings, req: Request, h: seq<Event>, o: Outcome)
    requires req.Deprovision? || req.Bind? || req.Unbind? || req.Update?
    ensures Ends(settings, req, Finding, h, o) <==>
              && LooksUp(settings, req, h)
              && if h[0].reply.GotDeployment?
                 then Ends(settings, req, ResumeFound(settings, req, h[0].reply.deployment), h[1..], o)
                 else |h| == 1 && NotReached(h[0].reply, o)
  {
    if LooksUp(settings, req, h) && !h[0].reply.GotDeployment? {
      assert Resume(settings, req, Finding, h[0].reply).Done?;
      assert h[1..] == [] <==> |h| == 1;
    }
  }

  /** A call that Compose answers with a recipe, or with errors, ends the operation. */
  ghost predicate Concludes(call: Call, kind: string, t: seq<Event>, o: Outcome) {
    && |t| == 1 && t[0].call == call
    && match t[0].reply
       case Errors(first, others) => Says(o, SquashErrors(first, others))
       case GotRecipe(recipe) => o == Accepted(Encode(OperationData(kind, recipe.id, [])))
       case _ => false
  }

  // ---------- Deprovision ----------

  ghost predicate DeprovisionAnswer(settings: Settings, req: Request, h: seq<Event>, o: Outcome)
    requires req.Deprovision?
  {
    if !req.asyncAllowed then h == [] && o == Refused(AsyncRequired)
    else if Nameless(settings, req.instanceID) then h == [] && SaysNameless(settings, o)
    else
      && LooksUp(settings, req, h)
      && match h[0].reply
         case GotDeployment(d) => Concludes(DeprovisionDeployment(d.id), "deprovision", h[1..], o)
         case reply => |h| == 1 && NotReached(reply, o)
  }

  lemma RemovingEnds(settings: Settings, req: Request, d: Deployment, t: seq<Event>, o: Outcome)
    requires req.Deprovision?
    ensures Ends(settings, req, Removing(d), t, o) <==>
              Concludes(DeprovisionDeployment(d.id), "deprovision", t, o)
  {
    if t != [] {
      assert t[1..] == [] <==> |t| == 1;
    }
  }

  /** What Deprovision does and answers, exactly. */
  lemma DeprovisionExactly(settings: Settings, req: Request, h: seq<Event>, o: Outcome)
    requires req.Deprovision?
    ensures Completes(settings, req, h, o) <==> DeprovisionAnswer(settings, req, h, o)
  {
    CompletesForwards(settings, req, h, o);
    FindingEnds(settings, req, h, o);
    if LooksUp(settings, req, h) && h[0].reply.GotDeployment? {
      RemovingEnds(settings, req, h[0].reply.deployment, h[1..], o);
    }
  }

  // ---------- the catalog ----------

  ghost predicate NoService(settings: Settings, serviceID: string) {
    forall s :: s in settings.catalog ==> s.id != serviceID
  }

  /** The service is there, as the i-th, but it has no plan with this ID. */
  ghost predicate NoPlanIn(settings: Settings, serviceID: string, planID: string, i: nat) {
    && FirstService(settings.catalog, serviceID, i)
    && forall p :: p in settings.catalog[i].plans ==> p.advertised.id != planID
  }

  /** The requested plan is the k-th of the i-th service. */
  ghost predicate PlannedAt(settings: Settings, serviceID: string, planID: string, i: nat, k: nat) {
    FirstService(settings.catalog, serviceID, i) && FirstPlan(settings.catalog[i].plans, planID, k)
  }

  /** The configuration of the requested plan: of the first plan with its ID in the first service with its ID. */
  ghost predicate Planned(settings: Settings, serviceID: string, planID: string, plan: ComposeConfig) {
    exists i: nat, k: nat ::
      PlannedAt(settings, serviceID, planID, i, k) && plan == settings.catalog[i].plans[k].compose
  }

  /** Why the requested plan is not there. */
  ghost predicate Unplanned(settings: Settings, serviceID: string, planID: string, text: string) {
    || (NoService(settings, serviceID) && text == "service " + serviceID + ": not found")
    || ((exists i: nat :: NoPlanIn(settings, serviceID, planID, i)) && text == "plan " + planID + ": not found")
  }

  lemma PlannedOnce(settings: Settings, serviceID: string, planID: string, plan: ComposeConfig)
    requires Planned(settings, serviceID, planID, plan)
    ensures forall text :: !Unplanned(settings, serviceID, planID, text)
    ensures forall other :: Planned(settings, serviceID, planID, other) ==> other == plan
  {
    var i: nat, k: nat :| PlannedAt(settings, serviceID, planID, i, k)
                          && plan == settings.catalog[i].plans[k].compose;
    forall i': nat, k': nat | PlannedAt(settings, serviceID, planID, i', k')
      ensures i' == i && k' == k
    {
    }
  }

  lemma UnplannedOnce(settings: Settings, serviceID: string, planID: string, text: string)
    requires Unplanned(settings, serviceID, planID, text)
    ensures forall plan :: !Planned(settings, serviceID, planID, plan)
    ensures forall other :: Unplanned(settings, serviceID, planID, other) ==> other == text
  {
    forall plan
      ensures !Planned(settings, serviceID, planID, plan)
    {
      if Planned(settings, serviceID, planID, plan) {
        PlannedOnce(settings, serviceID, planID, plan);
        assert false;
      }
    }
    if i: nat :| NoPlanIn(settings, serviceID, planID, i) {
      assert settings.catalog[i] in settings.catalog;
    }
  }

  /** The lookup gives the configuration of the requested plan, and fails iff there is no such service or plan. */
  lemma FindServicePlanExactly(settings: Settings, serviceID: string, planID: string)
    ensures match FindServicePlan(settings, serviceID, planID)
            case Success(plan) => Planned(settings, serviceID, planID, plan)
            case Failure(e) => Unplanned(settings, serviceID, planID, e)
  {
    FindServiceExactly(settings.catalog, serviceID);
    if FindService(settings.catalog, serviceID).Success? {
      var i: nat :| FirstService(settings.catalog, serviceID, i)
                    && FindService(settings.catalog, serviceID).value == settings.catalog[i];
      FindPlanExactly(settings.catalog[i].plans, planID);
      if FindPlan(settings.catalog[i].plans, planID).Success? {
        var k: nat :| FirstPlan(settings.catalog[i].plans, planID, k)
                      && FindPlan(settings.catalog[i].plans, planID).value == settings.catalog[i].plans[k];
        assert PlannedAt(settings, serviceID, planID, i, k);
      } else {
        assert NoPlanIn(settings, serviceID, planID, i);
      }
    }
  }

  /** The two cases exclude each other, and each has one outcome. */
  lemma PlanDecided(settings: Settings, serviceID: string, planID: string)
    ensures match FindServicePlan(settings, serviceID, planID)
            case Success(plan) =>
              && (forall other :: Planned(settings, serviceID, planID, other) <==> other == plan)
              && (forall text :: !Unplanned(settings, serviceID, planID, text))
            case Failure(e) =>
              && (forall text :: Unplanned(settings, serviceID, planID, text) <==> text == e)
              && (forall plan :: !Planned(settings, serviceID, planID, plan))
  {
    FindServicePlanExactly(settings, serviceID, planID);
    match FindServicePlan(settings, serviceID, planID) {
      case Success(plan) => PlannedOnce(settings, serviceID, planID, plan);
      case Failure(e) => UnplannedOnce(settings, serviceID, planID, e);
    }
  }

  // ---------- Update ----------

  ghost predicate UpdateAnswer(settings: Settings, req: Request, h: seq<Event>, o: Outcome)
    requires req.Update?
  {
    if !req.asyncAllowed then h == [] && o == Refused(AsyncRequired)
    else if NoService(settings, req.serviceID) then h == [] && Says(o, "service " + req.serviceID + ": not found")
    else if Nameless(settings, req.instanceID) then h == [] && SaysNameless(settings, o)
    else
      && LooksUp(settings, req, h)
      && match h[0].reply
         case GotDeployment(d) => ScalingAnswer(settings, req, d, h, o)
         case reply => |h| == 1 && NotReached(reply, o)
  }

  ghost predicate ScalingAnswer(settings: Settings, req: Request, d: Deployment, h: seq<Event>, o: Outcome)
    requires req.Update? && h != []
  {
    if req.planID != req.previousPlanID then |h| == 1 && Says(o, "changing plans is not currently supported")
    else
      || (|h| == 1 && exists text :: Unplanned(settings, req.serviceID, req.planID, text) && Says(o, text))
      || (exists plan :: Planned(settings, req.serviceID, req.planID, plan)
                         && Concludes(SetScalings(d.id, plan.units), "update", h[1..], o))
  }

  lemma ScalingEnds(settings: Settings, req: Request, d: Deployment, units: int, t: seq<Event>, o: Outcome)
    requires req.Update?
    ensures Ends(settings, req, Scaling(d, units), t, o) <==> Concludes(SetScalings(d.id, units), "update", t, o)
  {
    if t != [] {
      assert t[1..] == [] <==> |t| == 1;
    }
  }

  lemma ScalingAnswered(settings: Settings, req: Request, d: Deployment, h: seq<Event>, o: Outcome)
    requires req.Update? && h != []
    ensures Ends(settings, req, ResumeFound(settings, req, d), h[1..], o) <==> ScalingAnswer(settings, req, d, h, o)
  {
    assert h[1..] == [] <==> |h| == 1;
    if req.planID == req.previousPlanID {
      PlanDecided(settings, req.serviceID, req.planID);
      match FindServicePlan(settings, req.serviceID, req.planID) {
        case Success(plan) => ScalingEnds(settings, req, d, plan.units, h[1..], o);
        case Failure(e) => assert Unplanned(settings, req.serviceID, req.planID, e);
      }
    }
  }

  /** What Update does and answers, exactly. */
  lemma UpdateExactly(settings: Settings, req: Request, h: seq<Event>, o: Outcome)
    requires req.Update?
    ensures Completes(settings, req, h, o) <==> UpdateAnswer(settings, req, h, o)
  {
    CompletesForwards(settings, req, h, o);
    FindServiceExactly(settings.catalog, req.serviceID);
    FindingEnds(settings, req, h, o);
    if LooksUp(settings, req, h) && h[0].reply.GotDeployment? {
      ScalingAnswered(settings, req, h[0].reply.deployment, h, o);
    }
  }

  // ---------- Bind and Unbind ----------

  /** c is this lower-case character, or what strings.ToLower maps to it. */
  predicate SameLetter(c: char, lower: char) {
    || c == lower
    || ('a' <= lower <= 'z' && c as int + 32 == lower as int)
    || (lower == 'i' && c == '\U{0130}')
    || (lower == 'k' && c == '\U{212A}')
  }

  /** s is this lower-case word, letter by letter, up to case. */
  predicate UpToCase(s: string, word: string) {
    |s| == |word| && forall i :: 0 <= i < |s| ==> SameLetter(s[i], word[i])
  }

  lemma ToLowerExactly(s: string, word: string)
    requires forall i :: 0 <= i < |word| ==> '_' <= word[i] <= 'z'
    ensures ToLower(s) == word <==> UpToCase(s, word)
  {
    if UpToCase(s, word) {
      forall i | 0 <= i < |s|
        ensures LowerChar(s[i]) == word[i]
      {
        assert SameLetter(s[i], word[i]);
      }
    }
    if ToLower(s) == word {
      forall i | 0 <= i < |s|
        ensures SameLetter(s[i], word[i])
      {
        assert ToLower(s)[i] == word[i];
      }
    }
  }

  lemma EngineExactly(d: Deployment)
    ensures GetDBEngine(d) == if UpToCase(d.databaseType, "mongodb") then Success(MongoDB)
                              else if UpToCase(d.databaseType, "elastic_search") then Success(ElasticSearch)
                              else Failure("DB Engine '" + d.databaseType + "' not supported")
  {
    ToLowerExactly(d.databaseType, "mongodb");
    ToLowerExactly(d.databaseType, "elastic_search");
  }

  ghost predicate ConnectAnswer(settings: Settings, req: Request, h: seq<Event>, o: Outcome)
    requires req.Bind? || req.Unbind?
  {
    if Nameless(settings, req.instanceID) then h == [] && SaysNameless(settings, o)
    else
      && LooksUp(settings, req, h) && |h| == 1
      && match h[0].reply
         case GotDeployment(d) => EngineAnswer(req, d, o)
         case reply => NotReached(reply, o)
  }

  predicate EngineAnswer(req: Request, d: Deployment, o: Outcome) {
    if req.Bind? && |d.direct| == 0 then Says(o, "failed to get connection string")
    else if UpToCase(d.databaseType, "mongodb") then o == Connected(MongoDB, d)
    else if UpToCase(d.databaseType, "elastic_search") then o == Connected(ElasticSearch, d)
    else Says(o, "DB Engine '" + d.databaseType + "' not supported")
  }

  /** What Bind and Unbind do and answer before the engine takes over, exactly. */
  lemma ConnectExactly(settings: Settings, req: Request, h: seq<Event>, o: Outcome)
    requires req.Bind? || req.Unbind?
    ensures Completes(settings, req, h, o) <==> ConnectAnswer(settings, req, h, o)
  {
    CompletesForwards(settings, req, h, o);
    FindingEnds(settings, req, h, o);
    if LooksUp(settings, req, h) && h[0].reply.GotDeployment? {
      EngineExactly(h[0].reply.deployment);
      assert h[1..] == [] <==> |h| == 1;
    }
  }

  // ---------- LastOperation ----------

  /** Recipes are read in order while they are complete; the last one read, with its raw status, decides. */
  ghost predicate Reads(ids: seq<Id>, h: seq<Event>, o: Outcome) {
    && 1 <= |h| <= |ids|
    && (forall k :: 0 <= k < |h| ==> h[k].call == GetRecipe(ids[k]))
    && (forall k :: 0 <= k < |h| - 1 ==> h[k].reply.GotRecipe? && h[k].reply.recipe.status == "complete")
    && match h[|h| - 1].reply
       case Errors(first, others) => Says(o, SquashErrors(first, others))
       case GotRecipe(recipe) =>
         if recipe.status == "complete" then |h| == |ids| && o == Polled(Succeeded)
         else if recipe.status == "running" || recipe.status == "waiting" then o == Polled(InProgress)
         else o == Polled(Failed)
       case _ => false
  }

  lemma ReadsOne(ids: seq<Id>, h: seq<Event>, o: Outcome)
    requires ids != [] && h != []
    requires h[0].call == GetRecipe(ids[0])
    requires |ids| > 1 && h[0].reply.GotRecipe? && h[0].reply.recipe.status == "complete"
    ensures Reads(ids, h, o) <==> Reads(ids[1..], h[1..], o)
  {
    if Reads(ids[1..], h[1..], o) {
      forall k | 0 <= k < |h|
        ensures h[k].call == GetRecipe(ids[k])
        ensures k < |h| - 1 ==> h[k].reply.GotRecipe? && h[k].reply.recipe.status == "complete"
      {
        if k > 0 {
          assert h[1..][k - 1] == h[k] && ids[1..][k - 1] == ids[k];
        }
      }
    }
  }

  lemma {:induction false} PollingEnds(settings: Settings, req: Request, ids: seq<Id>, k: nat, t: seq<Event>,
                                       o: Outcome)
    requires req.LastOperation? && k < |ids|
    ensures Ends(settings, req, Polling(ids, k), t, o) <==> Reads(ids[k..], t, o)
    decreases |ids| - k
  {
    if t != [] && t[0].call == GetRecipe(ids[k]) && Fits(t[0].call, t[0].reply) {
      assert t[1..] == [] <==> |t| == 1;
      if t[0].reply.GotRecipe? && t[0].reply.recipe.status == "complete" && k + 1 < |ids| {
        PollingEnds(settings, req, ids, k + 1, t[1..], o);
        ReadsOne(ids[k..], t, o);
        assert ids[k..][1..] == ids[k + 1..];
      }
    }
  }

  ghost predicate PollAnswer(req: Request, h: seq<Event>, o: Outcome)
    requires req.LastOperation?
  {
    match Decode(req.operationData)
    case None => h == [] && Says(o, "malformed operation data")
    case Some(data) => Reads([data.recipeID] + data.whitelistRecipeIDs, h, o)
  }

  /** What LastOperation does and answers, exactly. */
  lemma LastOperationExactly(settings: Settings, req: Request, h: seq<Event>, o: Outcome)
    requires req.LastOperation?
    ensures Completes(settings, req, h, o) <==> PollAnswer(req, h, o)
  {
    CompletesForwards(settings, req, h, o);
    match Decode(req.operationData) {
      case None =>
      case Some(data) =>
        var ids := [data.recipeID] + data.whitelistRecipeIDs;
        PollingEnds(settings, req, ids, 0, h, o);
        assert ids[0..] == ids;
    }
  }

  // ---------- when a request is accepted ----------

  /** The guard is the only source of AsyncRequired, a call is made iff nothing stands against it beforehand, ... */
  lemma DeprovisionAccepted(settings: Settings, req: Request, h: seq<Event>, o: Outcome)
    requires req.Deprovision? && Completes(settings, req, h, o)
    ensures o == Refused(AsyncRequired) <==> !req.asyncAllowed
    ensures h != [] <==> req.asyncAllowed && !Nameless(settings, req.instanceID)
    ensures o.Accepted? <==> |h| == 2 && h[0].reply.GotDeployment? && h[1].reply.GotRecipe?
    ensures o == Refused(InstanceDoesNotExist) <==> h != [] && Missing(h[0].reply)
  {
    DeprovisionExactly(settings, req, h, o);
  }

  lemma UpdateAccepted(settings: Settings, req: Request, h: seq<Event>, o: Outcome)
    requires req.Update? && Completes(settings, req, h, o)
    ensures o == Refused(AsyncRequired) <==> !req.asyncAllowed
    ensures h != [] <==>
              req.asyncAllowed && !NoService(settings, req.serviceID) && !Nameless(settings, req.instanceID)
    ensures |h| > 1 <==>
              && h != [] && h[0].reply.GotDeployment? && req.planID == req.previousPlanID
              && exists plan :: Planned(settings, req.serviceID, req.planID, plan)
    ensures o.Accepted? <==> |h| == 2 && h[1].reply.GotRecipe?
    ensures o == Refused(InstanceDoesNotExist) <==> h != [] && Missing(h[0].reply)
  {
    UpdateExactly(settings, req, h, o);
    PlanDecided(settings, req.serviceID, req.planID);
  }

  /** An engine takes over iff the lookup found a deployment, for Bind one with a connection string, of its type. */
  lemma ConnectedExactly(settings: Settings, req: Request, h: seq<Event>, engine: Engine, d: Deployment)
    requires req.Bind? || req.Unbind?
    ensures Completes(settings, req, h, Connected(engine, d)) <==>
              && !Nameless(settings, req.instanceID)
              && h == [Event(GetDeploymentByName(InstanceName(settings.dbPrefix, req.instanceID)), GotDeployment(d))]
              && (req.Bind? ==> d.direct != [])
              && UpToCase(d.databaseType, if engine == MongoDB then "mongodb" else "elastic_search")
  {
    ConnectExactly(settings, req, h, Connected(engine, d));
  }
}
