/**
  compose/compose.go: the Compose client as the broker sees it. Only the calls the broker makes after start-up
  appear. A client keeps the transcript of its calls; what Compose answers is not determined here.
*/
module ComposeApi {

  type Id = string

  datatype Deployment = Deployment(
    id: Id,
    name: string,
    databaseType: string,
    customerBillingCode: string,
    provisionRecipeID: Id,
    direct: seq<string>)

  datatype Recipe = Recipe(id: Id, status: string)

  datatype Backup = Backup(id: Id, createdAt: int, isRestorable: bool)

  datatype Call =
    | CreateDeployment(name: string, accountID: string, datacenter: string, databaseType: string, units: int,
                       ssl: bool, clusterID: string, customerBillingCode: string)
    | RestoreBackup(sourceID: Id, backupID: Id, name: string, datacenter: string, ssl: bool, clusterID: string)
    | PatchDeployment(deploymentID: Id, customerBillingCode: string)
    | DeprovisionDeployment(deploymentID: Id)
    | CreateDeploymentWhitelist(deploymentID: Id, ip: string, description: string)
    | SetScalings(deploymentID: Id, units: int)
    | GetDeploymentByName(name: string)
    | GetBackupsForDeployment(sourceID: Id)
    | GetRecipe(recipeID: Id)

  /** What the client hands back: a non-empty error list, a nil value, or a value of the call's kind. */
  datatype Reply =
    | Errors(first: string, others: seq<string>)
    | Nil
    | GotDeployment(deployment: Deployment)
    | GotRecipe(recipe: Recipe)
    | GotBackups(backups: seq<Backup>)

  /** The replies a call can get. Nil is allowed exactly where the broker checks for it. */
  predicate Fits(call: Call, reply: Reply) {
    reply.Errors? ||
    match call
    case CreateDeployment(_, _, _, _, _, _, _, _) => reply.GotDeployment? || reply.Nil?
    case RestoreBackup(_, _, _, _, _, _) => reply.GotDeployment?
    case PatchDeployment(_, _) => reply.GotDeployment?
    case DeprovisionDeployment(_) => reply.GotRecipe?
    case CreateDeploymentWhitelist(_, _, _) => reply.GotRecipe? || reply.Nil?
    case SetScalings(_, _) => reply.GotRecipe?
    case GetDeploymentByName(_) => reply.GotDeployment? || reply.Nil?
    case GetBackupsForDeployment(_) => reply.GotBackups?
    case GetRecipe(_) => reply.GotRecipe?
  }

  datatype Event = Event(call: Call, reply: Reply)

  /** SquashErrors */
  function SquashErrors(first: string, others: seq<string>): string
    decreases |others|
  {
    if others == [] then first else first + "; " + SquashErrors(others[0], others[1..])
  }

  class Client {
    var transcript: seq<Event>

    constructor ()
      ensures transcript == []
    {
      transcript := [];
    }

    /** One request to Compose: any reply that fits the call may come back. */
    method Issue(call: Call) returns (reply: Reply)
      modifies this
      ensures Fits(call, reply)
      ensures transcript == old(transcript) + [Event(call, reply)]
    {
      reply := *;
      if !Fits(call, reply) {
        reply := Errors("malformed response", []);
      }
      transcript := transcript + [Event(call, reply)];
    }
  }
}
