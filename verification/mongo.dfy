/**
  dbengine/mongo_engine.go and dbengine/utils.go: which database a Mongo deployment's bindings use, and which users its
  server holds. Dialling, TLS and random numbers are the environment's: a call is given what they came to.
*/
module Mongo {
  import opened Wrappers
  import opened Text
  import opened Uri
  import opened MongoUri

  const DEFAULT_DATABASE := "default"

  function MakeUserName(bindingID: string): string {
    "user_" + bindingID
  }

  // ---------- choosing the database ----------

  predicate Suits(name: string, defaultName: string) {
    name == defaultName || HasPrefix(name, "db_")
  }

  /** The first listed name that suits, or the default. */
  function ChooseDatabase(listing: seq<string>, defaultName: string): string {
    if listing == [] then defaultName
    else if Suits(listing[0], defaultName) then listing[0]
    else ChooseDatabase(listing[1..], defaultName)
  }

  lemma {:induction false} ChosenIs(listing: seq<string>, defaultName: string, k: nat)
    requires k <= |listing| && forall j :: 0 <= j < k ==> !Suits(listing[j], defaultName)
    requires k < |listing| ==> Suits(listing[k], defaultName)
    ensures ChooseDatabase(listing, defaultName) == if k < |listing| then listing[k] else defaultName
  {
    if k > 0 {
      ChosenIs(listing[1..], defaultName, k - 1);
    }
  }

  /** A name the broker uses if it is listed. */
  predicate NamesDatabase(name: string) {
    name == "default" || (|name| >= 3 && name[0] == 'd' && name[1] == 'b' && name[2] == '_')
  }

  predicate FirstNamed(listing: seq<string>, k: nat) {
    k < |listing| && NamesDatabase(listing[k]) && forall j :: 0 <= j < k ==> !NamesDatabase(listing[j])
  }

  lemma SuitsExactly(name: string)
    ensures Suits(name, DEFAULT_DATABASE) <==> NamesDatabase(name)
  {
    if |name| >= 3 && name[0] == 'd' && name[1] == 'b' && name[2] == '_' {
      assert name[..3] == "db_";
    }
  }

  /** On the listing itself: the first name that is "default" or starts with "db_" is chosen, without one "default". */
  lemma {:induction false} ChosenExactly(listing: seq<string>)
    ensures var name := ChooseDatabase(listing, DEFAULT_DATABASE);
            || (exists k: nat :: FirstNamed(listing, k) && name == listing[k])
            || ((forall n :: n in listing ==> !NamesDatabase(n)) && name == "default")
  {
    if listing != [] {
      SuitsExactly(listing[0]);
      ChosenExactly(listing[1..]);
      if NamesDatabase(listing[0]) {
        assert FirstNamed(listing, 0);
      } else if k: nat :| FirstNamed(listing[1..], k)
                          && ChooseDatabase(listing[1..], DEFAULT_DATABASE) == listing[1..][k] {
        assert FirstNamed(listing, k + 1);
      }
    }
  }

  method GetDatabaseName(listing: Result<seq<string>, string>, defaultName: string) returns (r: Result<string, string>)
    ensures listing.Failure? ==> r == Failure(listing.error)
    ensures listing.Success? ==> r == Success(ChooseDatabase(listing.value, defaultName))
  {
    if listing.Failure? {
      return Failure(listing.error);
    }
    for k := 0 to |listing.value|
      invariant forall j :: 0 <= j < k ==> !Suits(listing.value[j], defaultName)
    {
      var name := listing.value[k];
      if name == defaultName || HasPrefix(name, "db_") {
        ChosenIs(listing.value, defaultName, k);
        return Success(name);
      }
    }
    ChosenIs(listing.value, defaultName, |listing.value|);
    return Success(defaultName);
  }

  // ---------- the server ----------

  /** What becomes of a write: done, refused, or done although an error came back. */
  datatype Write = Done | Refused | DoneUnreported

  /** For each database, its users and their passwords */
  type Users = map<string, map<string, string>>

  function UsersOf(users: Users, database: string): map<string, string> {
    if database in users then users[database] else map[]
  }

  function Upserted(users: Users, database: string, name: string, password: string): Users {
    users[database := UsersOf(users, database)[name := password]]
  }

  function Removed(users: Users, database: string, name: string): Users {
    users[database := UsersOf(users, database) - {name}]
  }

  predicate Holds(users: Users, database: string, name: string, password: string) {
    name in UsersOf(users, database) && UsersOf(users, database)[name] == password
  }

  lemma UpsertedHolds(users: Users, database: string, name: string, password: string)
    ensures Holds(Upserted(users, database, name, password), database, name, password)
  {
  }

  class Server {
    var users: Users

    constructor (users: Users)
      ensures this.users == users
    {
      this.users := users;
    }

    method UpsertUser(database: string, name: string, password: string, write: Write) returns (ok: bool)
      modifies this
      ensures ok == write.Done?
      ensures users == if write.Refused? then old(users) else Upserted(old(users), database, name, password)
    {
      if !write.Refused? {
        users := Upserted(users, database, name, password);
      }
      ok := write.Done?;
    }

    /** Removing a user that does not exist is an error. */
    method RemoveUser(database: string, name: string, write: Write) returns (ok: bool)
      modifies this
      ensures ok == (write.Done? && name in UsersOf(old(users), database))
      ensures users == if write.Refused? then old(users) else Removed(old(users), database, name)
    {
      ok := write.Done? && name in UsersOf(users, database);
      if !write.Refused? {
        users := Removed(users, database, name);
      }
    }
  }

  // ---------- the engine ----------

  class DialInfo {
    var addrs: seq<string>
    var database: string
    var username: string
    var password: string

    constructor (addrs: seq<string>, database: string, username: string, password: string)
      ensures this.addrs == addrs && this.database == database
      ensures this.username == username && this.password == password
    {
      this.addrs, this.database, this.username, this.password := addrs, database, username, password;
    }
  }

  /** MongoCredentials */
  datatype Credentials = Credentials(hosts: seq<string>, name: string, username: string, password: string,
                                     uri: string, caCertificateBase64: string)

  /** The URI is the one rendered from the other fields. */
  predicate Rendered(c: Credentials) {
    c.uri == MongoUri.MongoUri(c.username, c.password, c.hosts, c.name)
  }

  method DialInfoToCredentials(dialInfo: DialInfo, caCertificateBase64: string) returns (c: Credentials)
    ensures c.hosts == dialInfo.addrs && c.name == dialInfo.database
    ensures c.username == dialInfo.username && c.password == dialInfo.password
    ensures Rendered(c) && c.caCertificateBase64 == caCertificateBase64
  {
    var uri := MongoUri.MongoUri(dialInfo.username, dialInfo.password, dialInfo.addrs, dialInfo.database);
    return Credentials(dialInfo.addrs, dialInfo.database, dialInfo.username, dialInfo.password, uri,
                       caCertificateBase64);
  }

  /** An engine error, and whether the users had already been written to. */
  datatype EngineError = BeforeWrite(text: string) | AtWrite(text: string)

  /** How far a call gets: no dial information, no session, or a session and what it lists. */
  datatype Reach = NoDialInfo(text: string) | NoSession(text: string) | Session(listing: Result<seq<string>, string>)

  /** One Bind or Unbind, with what the environment makes of it. */
  datatype Call =
    | Generate(bindingID: string, reach: Reach, password: Result<string, string>, write: Write)
    | Revoke(bindingID: string, reach: Reach, write: Write)
  {
    predicate Listed() {
      reach.Session? && reach.listing.Success?
    }

    function Database(): string
      requires Listed()
    {
      ChooseDatabase(reach.listing.value, DEFAULT_DATABASE)
    }

    /** It gets as far as writing the user. */
    predicate Writes() {
      Listed() && (Generate? ==> password.Success?)
    }

    /** Why it did not. */
    function Excuse(): string
      requires !Writes()
    {
      match reach
      case NoDialInfo(text) => "failed to get master dial info: " + text
      case NoSession(text) => "failed to connect to MongoDB: " + text
      case Session(Failure(text)) => "failed to list the MongoDB databases: " + text
      case Session(Success(_)) => "failed to generate password: " + password.error
    }
  }

  datatype Report = Reported | FailedBefore | FailedAtWrite

  /** What a call reports, given the users it finds. */
  function ReportOf(users: Users, call: Call): Report {
    if !call.Writes() then FailedBefore
    else if !call.write.Done? then FailedAtWrite
    else if call.Revoke? && MakeUserName(call.bindingID) !in UsersOf(users, call.Database()) then FailedAtWrite
    else Reported
  }

  /** What a call does to the users. */
  function UsersAfter(users: Users, call: Call): Users {
    if !call.Writes() || call.write.Refused? then users
    else
      match call
      case Generate(bindingID, _, password, _) =>
        Upserted(users, call.Database(), MakeUserName(bindingID), password.value)
      case Revoke(bindingID, _, _) => Removed(users, call.Database(), MakeUserName(bindingID))
  }

  /** How a failed call ends. */
  predicate Fails(users: Users, call: Call, error: EngineError) {
    if call.Writes() then ReportOf(users, call).FailedAtWrite? && error.AtWrite?
    else error == BeforeWrite(call.Excuse())
  }

  /** GenerateCredentials; the master dial information is what the deployment's connection string comes to. */
  method GenerateCredentials(server: Server, masterDialInfo: DialInfo, caCertificateBase64: string, call: Call)
    returns (r: Result<Credentials, EngineError>)
    requires call.Generate?
    modifies server, masterDialInfo`database, masterDialInfo`username, masterDialInfo`password
    ensures server.users == UsersAfter(old(server.users), call)
    ensures r.Success? <==> ReportOf(old(server.users), call).Reported?
    ensures r.Failure? ==> Fails(old(server.users), call, r.error) && unchanged(masterDialInfo)
    ensures r.Success? ==>
              && Rendered(r.value) && r.value.hosts == old(masterDialInfo.addrs)
              && r.value.name == call.Database() && r.value.username == MakeUserName(call.bindingID)
              && r.value.password == call.password.value && r.value.caCertificateBase64 == caCertificateBase64
              && Holds(server.users, call.Database(), MakeUserName(call.bindingID), call.password.value)
              && masterDialInfo.database == call.Database() && masterDialInfo.password == call.password.value
              && masterDialInfo.username == MakeUserName(call.bindingID)
  {
    var created := CreateUser(server, call);
    if created.Failure? {
      return Failure(created.error);
    }
    var bindDialInfo := masterDialInfo;
    bindDialInfo.database := created.value;
    bindDialInfo.username := MakeUserName(call.bindingID);
    bindDialInfo.password := call.password.value;
    assert bindDialInfo.addrs == old(masterDialInfo.addrs);
    var credentials := DialInfoToCredentials(bindDialInfo, caCertificateBase64);
    return Success(credentials);
  }

  /** The part of GenerateCredentials that works on the server; returns the database of the new user. */
  method CreateUser(server: Server, call: Call) returns (r: Result<string, EngineError>)
    requires call.Generate?
    modifies server
    ensures server.users == UsersAfter(old(server.users), call)
    ensures r.Success? <==> ReportOf(old(server.users), call).Reported?
    ensures r.Failure? ==> Fails(old(server.users), call, r.error)
    ensures r.Success? ==>
              && r.value == call.Database()
              && Holds(server.users, r.value, MakeUserName(call.bindingID), call.password.value)
  {
    var database := SelectDatabase(call);
    if database.Failure? {
      return Failure(BeforeWrite(database.error));
    }
    var username := MakeUserName(call.bindingID);
    if call.password.Failure? {
      return Failure(BeforeWrite("failed to generate password: " + call.password.error));
    }
    var ok := server.UpsertUser(database.value, username, call.password.value, call.write);
    if !ok {
      return Failure(AtWrite("failed to create user in MongoDB"));
    }
    UpsertedHolds(old(server.users), database.value, username, call.password.value);
    return Success(database.value);
  }

  /** The steps both calls start with: dial information, session, and the choice of the database. */
  method SelectDatabase(call: Call) returns (r: Result<string, string>)
    ensures r.Success? <==> call.Listed()
    ensures r.Success? ==> r.value == call.Database()
    ensures r.Failure? ==> r.error == call.Excuse()
  {
    if call.reach.NoDialInfo? {
      return Failure("failed to get master dial info: " + call.reach.text);
    }
    if call.reach.NoSession? {
      return Failure("failed to connect to MongoDB: " + call.reach.text);
    }
    var dbName := GetDatabaseName(call.reach.listing, DEFAULT_DATABASE);
    if dbName.Failure? {
      return Failure("failed to list the MongoDB databases: " + dbName.error);
    }
    return dbName;
  }

  lemma UserNameContains(bindingID: string)
    ensures Contains(MakeUserName(bindingID), PLACEHOLDER) <==> Contains(bindingID, PLACEHOLDER)
  {
    ContainsTail('_', bindingID, PLACEHOLDER);
    ContainsTail('r', ['_'] + bindingID, PLACEHOLDER);
    ContainsTail('e', ['r'] + (['_'] + bindingID), PLACEHOLDER);
    ContainsTail('s', ['e'] + (['r'] + (['_'] + bindingID)), PLACEHOLDER);
    ContainsTail('u', ['s'] + (['e'] + (['r'] + (['_'] + bindingID))), PLACEHOLDER);
    assert MakeUserName(bindingID) == ['u'] + (['s'] + (['e'] + (['r'] + (['_'] + bindingID))));
  }

  /**
    The URI in a binding's credentials: it has the hosts put in and nothing else touched iff neither the binding ID nor
    the password nor the database name contains the placeholder (unless the hosts are spelled like it), and then it
    reads back as exactly the credentials' user, password, ordered hosts and database.
  */
  lemma CredentialsUri(c: Credentials, bindingID: string, listing: seq<string>)
    requires Rendered(c)
    requires c.username == MakeUserName(bindingID) && c.name == ChooseDatabase(listing, DEFAULT_DATABASE)
    requires Octets(c.username) && Octets(c.password) && Octets(c.name) && HostTexts(c.hosts)
    ensures var hidden := Contains(bindingID, PLACEHOLDER) || Contains(c.password, PLACEHOLDER)
                          || Contains(c.name, PLACEHOLDER);
            var intended := WithHosts(c.username, c.password, Join(c.hosts, ','), c.name);
            && (c.uri == intended <==> Join(c.hosts, ',') == PLACEHOLDER || !hidden)
            && ParseUri(intended) == Some(Parts(c.username, c.password, c.hosts, c.name))
  {
    UserNameContains(bindingID);
    UriIsIntended(c.username, c.password, c.hosts, c.name);
    IntendedReadBack(c.username, c.password, c.hosts, c.name);
    ChosenStartsWithD(listing);
  }

  /** A binding ID spelled like the placeholder gets a URI that is not the intended one. */
  lemma PlaceholderBindingCorrupts(password: string, hosts: seq<string>, name: string)
    requires Join(hosts, ',') != PLACEHOLDER
    ensures MongoUri.MongoUri(MakeUserName(PLACEHOLDER), password, hosts, name)
            != WithHosts(MakeUserName(PLACEHOLDER), password, Join(hosts, ','), name)
  {
    ContainsItself(PLACEHOLDER);
    UserNameContains(PLACEHOLDER);
    UriIsIntended(MakeUserName(PLACEHOLDER), password, hosts, name);
  }

  lemma ContainsItself(s: string)
    ensures Contains(s, s)
  {
    assert OccursAt(s, s, 0);
  }

  lemma {:induction false} ChosenStartsWithD(listing: seq<string>)
    ensures var name := ChooseDatabase(listing, DEFAULT_DATABASE); name != [] && name[0] == 'd'
  {
    if listing != [] {
      ChosenStartsWithD(listing[1..]);
    }
  }

  method RevokeCredentials(server: Server, call: Call) returns (r: Option<EngineError>)
    requires call.Revoke?
    modifies server
    ensures server.users == UsersAfter(old(server.users), call)
    ensures r.None? <==> ReportOf(old(server.users), call).Reported?
    ensures r.Some? ==> Fails(old(server.users), call, r.value)
  {
    var database := SelectDatabase(call);
    if database.Failure? {
      return Some(BeforeWrite(database.error));
    }
    var ok := server.RemoveUser(database.value, MakeUserName(call.bindingID), call.write);
    return if ok then None else Some(AtWrite("failed to remove user in MongoDB"));
  }

  // ---------- whole runs ----------

  /** What can be known from the reports alone: bindings that exist, and bindings that may or may not. */
  datatype Ledger = Ledger(live: set<string>, doubtful: set<string>)

  function Book(ledger: Ledger, call: Call, report: Report): Ledger {
    var b := call.bindingID;
    match report
    case FailedBefore => ledger
    case Reported =>
      Ledger(if call.Generate? then ledger.live + {b} else ledger.live - {b}, ledger.doubtful - {b})
    case FailedAtWrite =>
      if call.Generate? then
        if b in ledger.live then ledger else Ledger(ledger.live, ledger.doubtful + {b})
      else
        if b in ledger.live then Ledger(ledger.live - {b}, ledger.doubtful + {b}) else ledger
  }

  function UsersAfterAll(users: Users, calls: seq<Call>): Users {
    if calls == [] then users else UsersAfter(UsersAfterAll(users, calls[..|calls| - 1]), calls[|calls| - 1])
  }

  function LedgerAfterAll(users: Users, calls: seq<Call>): Ledger {
    if calls == [] then Ledger({}, {})
    else
      var before, call := calls[..|calls| - 1], calls[|calls| - 1];
      Book(LedgerAfterAll(users, before), call, ReportOf(UsersAfterAll(users, before), call))
  }

  function Images(bindings: set<string>): set<string> {
    set b | b in bindings :: MakeUserName(b)
  }

  /** Different bindings have different users. */
  lemma UserNamesDistinct(a: string, b: string)
    ensures MakeUserName(a) == MakeUserName(b) <==> a == b
  {
    assert MakeUserName(a)[5..] == a && MakeUserName(b)[5..] == b;
  }

  /** All calls of the run that get to choose a database choose this one. */
  ghost predicate OneDatabase(calls: seq<Call>, database: string) {
    forall i :: 0 <= i < |calls| && calls[i].Listed() ==> calls[i].Database() == database
  }

  /** Either no db_* name is ever listed, or one db_* name is in every listing, as the only name that suits. */
  ghost predicate SteadyListings(calls: seq<Call>, database: string) {
    forall i :: 0 <= i < |calls| && calls[i].Listed() ==>
      var listing := calls[i].reach.listing.value;
      if HasPrefix(database, "db_") then
        database in listing && forall n :: n in listing && Suits(n, DEFAULT_DATABASE) ==> n == database
      else database == DEFAULT_DATABASE && forall n :: n in listing ==> !HasPrefix(n, "db_")
  }

  lemma {:induction false} SteadyChoice(listing: seq<string>, database: string)
    requires forall n :: n in listing && Suits(n, DEFAULT_DATABASE) ==> n == database
    requires database in listing || database == DEFAULT_DATABASE
    requires Suits(database, DEFAULT_DATABASE)
    ensures ChooseDatabase(listing, DEFAULT_DATABASE) == database
  {
    if listing != [] {
      if listing[0] != database {
        assert listing[0] in listing;
        assert database in listing ==> database in listing[1..];
        SteadyChoice(listing[1..], database);
      }
    }
  }

  /** With steady listings every call of the run works on the same database. */
  lemma SteadyIsOne(calls: seq<Call>, database: string)
    requires SteadyListings(calls, database)
    ensures OneDatabase(calls, database)
  {
    forall i | 0 <= i < |calls| && calls[i].Listed()
      ensures calls[i].Database() == database
    {
      SteadyChoice(calls[i].reach.listing.value, database);
    }
  }

  /** The users the broker has made: those that were not there at the start. */
  function Made(initial: Users, users: Users, database: string): set<string> {
    UsersOf(users, database).Keys - UsersOf(initial, database).Keys
  }

  /** Before the run, nobody's name looks like a binding's. */
  ghost predicate NoBindingUsers(users: Users, database: string) {
    forall b :: MakeUserName(b) !in UsersOf(users, database)
  }

  ghost predicate Booked(initial: Users, users: Users, database: string, ledger: Ledger) {
    && ledger.live !! ledger.doubtful
    && (forall b :: b in ledger.live ==> MakeUserName(b) in UsersOf(users, database))
    && (forall n :: n in UsersOf(users, database) && n !in UsersOf(initial, database) ==>
          exists b :: b in ledger.live + ledger.doubtful && n == MakeUserName(b))
    && (forall n :: n in UsersOf(initial, database) ==> n in UsersOf(users, database))
  }

  lemma BookedStep(initial: Users, users: Users, database: string, ledger: Ledger, call: Call)
    requires NoBindingUsers(initial, database) && Booked(initial, users, database, ledger)
    requires call.Listed() ==> call.Database() == database
    ensures Booked(initial, UsersAfter(users, call), database, Book(ledger, call, ReportOf(users, call)))
    ensures forall d :: d != database ==> UsersOf(UsersAfter(users, call), d) == UsersOf(users, d)
  {
    var b := call.bindingID;
    var users', ledger' := UsersAfter(users, call), Book(ledger, call, ReportOf(users, call));
    forall a | a in ledger'.live
      ensures MakeUserName(a) in UsersOf(users', database)
    {
      UserNamesDistinct(a, b);
    }
    forall n | n in UsersOf(users', database) && n !in UsersOf(initial, database)
      ensures exists a :: a in ledger'.live + ledger'.doubtful && n == MakeUserName(a)
    {
      if n == MakeUserName(b) {
        if n in UsersOf(users, database) {
          var a :| a in ledger.live + ledger.doubtful && n == MakeUserName(a);
          UserNamesDistinct(a, b);
        }
        assert b in ledger'.live + ledger'.doubtful;
      } else {
        var a :| a in ledger.live + ledger.doubtful && n == MakeUserName(a);
        assert a in ledger'.live + ledger'.doubtful;
      }
    }
  }

  lemma {:induction false} BookedAfterAll(initial: Users, calls: seq<Call>, database: string)
    requires OneDatabase(calls, database) && NoBindingUsers(initial, database)
    ensures Booked(initial, UsersAfterAll(initial, calls), database, LedgerAfterAll(initial, calls))
    ensures forall d :: d != database ==> UsersOf(UsersAfterAll(initial, calls), d) == UsersOf(initial, d)
  {
    if calls != [] {
      var before, call := calls[..|calls| - 1], calls[|calls| - 1];
      BookedAfterAll(initial, before, database);
      BookedStep(initial, UsersAfterAll(initial, before), database, LedgerAfterAll(initial, before), call);
    }
  }

  /**
    Users and bindings, over every run of Bind and Unbind, with failures, rebinds and changing listings: if the calls
    choose one database, the users the broker has made in it are at least those of the bindings reported as existing and
    at most those plus the doubtful ones, exactly the former when no write has failed; no other database is touched.
  */
  lemma UsersAreBindings(initial: Users, calls: seq<Call>, database: string)
    requires OneDatabase(calls, database) && NoBindingUsers(initial, database)
    ensures var ledger, users := LedgerAfterAll(initial, calls), UsersAfterAll(initial, calls);
            && Images(ledger.live) <= Made(initial, users, database) <= Images(ledger.live + ledger.doubtful)
            && (ledger.doubtful == {} ==> Made(initial, users, database) == Images(ledger.live))
            && forall d :: d != database ==> UsersOf(users, d) == UsersOf(initial, d)
  {
    BookedAfterAll(initial, calls, database);
    var ledger := LedgerAfterAll(initial, calls);
    assert ledger.doubtful == {} ==> ledger.live + ledger.doubtful == ledger.live;
  }

  // ---------- runs whose failures write nothing ----------

  /** Every call that failed while writing has failed cleanly: an error means that nothing was written. */
  ghost predicate CleanFailures(calls: seq<Call>) {
    forall i :: 0 <= i < |calls| ==> !calls[i].write.DoneUnreported?
  }

  /** The bindings whose last reported success was a Bind. */
  function LiveBindings(users: Users, calls: seq<Call>): set<string> {
    if calls == [] then {}
    else
      var before, call := calls[..|calls| - 1], calls[|calls| - 1];
      var live := LiveBindings(users, before);
      if !ReportOf(UsersAfterAll(users, before), call).Reported? then live
      else if call.Generate? then live + {call.bindingID} else live - {call.bindingID}
  }

  /** The same for the calls that chose one database: its live bindings, each with the password its Bind returned. */
  function LiveIn(users: Users, calls: seq<Call>, database: string): map<string, string> {
    if calls == [] then map[]
    else
      var before, call := calls[..|calls| - 1], calls[|calls| - 1];
      LiveAfter(LiveIn(users, before, database), UsersAfterAll(users, before), call, database)
  }

  function LiveAfter(live: map<string, string>, users: Users, call: Call, database: string): map<string, string> {
    if !ReportOf(users, call).Reported? || call.Database() != database then live
    else
      match call
      case Generate(bindingID, _, password, _) => live[bindingID := password.value]
      case Revoke(bindingID, _, _) => live - {bindingID}
  }

  /** A database's users are those it had and those of its live bindings, with the passwords handed out for them. */
  ghost predicate Agrees(initial: Users, users: Users, database: string, live: map<string, string>) {
    && Made(initial, users, database) == Images(live.Keys)
    && (forall b :: b in live ==> Holds(users, database, MakeUserName(b), live[b]))
    && (forall n :: n in UsersOf(initial, database) ==> Holds(users, database, n, UsersOf(initial, database)[n]))
  }

  /**
    Database by database, whatever is listed when: if failures are clean, after any run the users the broker has made in
    a database are exactly those of the bindings live in it, each with the password its last reported Bind returned.
  */
  lemma {:induction false} UsersPerDatabase(initial: Users, calls: seq<Call>, database: string)
    requires NoBindingUsers(initial, database) && CleanFailures(calls)
    ensures Agrees(initial, UsersAfterAll(initial, calls), database, LiveIn(initial, calls, database))
  {
    if calls != [] {
      var before, call := calls[..|calls| - 1], calls[|calls| - 1];
      UsersPerDatabase(initial, before, database);
      assert !call.write.DoneUnreported?;
      LiveStep(initial, UsersAfterAll(initial, before), database, LiveIn(initial, before, database), call);
    }
  }

  lemma OwnUserStep(users: Users, database: string, call: Call)
    requires ReportOf(users, call).Reported? && call.Database() == database
    ensures var was, now := UsersOf(users, database), UsersOf(UsersAfter(users, call), database);
            var name := MakeUserName(call.bindingID);
            now == if call.Generate? then was[name := call.password.value] else was - {name}
  {
  }

  lemma OtherUsersStep(users: Users, database: string, call: Call)
    requires !call.write.DoneUnreported?
    requires !ReportOf(users, call).Reported? || call.Database() != database
    ensures UsersOf(UsersAfter(users, call), database) == UsersOf(users, database)
  {
  }

  lemma LiveStep(initial: Users, users: Users, database: string, live: map<string, string>, call: Call)
    requires NoBindingUsers(initial, database) && Agrees(initial, users, database, live)
    requires !call.write.DoneUnreported?
    ensures Agrees(initial, UsersAfter(users, call), database, LiveAfter(live, users, call, database))
  {
    var b := call.bindingID;
    if ReportOf(users, call).Reported? && call.Database() == database {
      OwnUserStep(users, database, call);
      ImagesOfOneMore(live.Keys, b);
      forall a
        ensures MakeUserName(a) == MakeUserName(b) <==> a == b
      {
        UserNamesDistinct(a, b);
      }
      assert LiveAfter(live, users, call, database).Keys == if call.Generate? then live.Keys + {b} else live.Keys - {b};
    } else {
      OtherUsersStep(users, database, call);
    }
  }

  lemma ImagesOfOneMore(bindings: set<string>, b: string)
    ensures Images(bindings + {b}) == Images(bindings) + {MakeUserName(b)}
    ensures Images(bindings - {b}) == Images(bindings) - {MakeUserName(b)}
  {
    forall a
      ensures MakeUserName(a) == MakeUserName(b) <==> a == b
    {
      UserNamesDistinct(a, b);
    }
  }

  lemma {:induction false} LiveInTheOne(users: Users, calls: seq<Call>, database: string)
    requires OneDatabase(calls, database)
    ensures LiveIn(users, calls, database).Keys == LiveBindings(users, calls)
  {
    if calls != [] {
      LiveInTheOne(users, calls[..|calls| - 1], database);
    }
  }

  /**
    If failures are clean and the calls choose one database, the users the broker has made there are exactly those of
    the live bindings, after any run, and each has the password that its last reported Bind returned.
  */
  lemma UsersAreLiveBindings(initial: Users, calls: seq<Call>, database: string)
    requires OneDatabase(calls, database) && NoBindingUsers(initial, database) && CleanFailures(calls)
    ensures Made(initial, UsersAfterAll(initial, calls), database) == Images(LiveBindings(initial, calls))
    ensures forall b :: b in LiveBindings(initial, calls) ==>
              && b in LiveIn(initial, calls, database)
              && Holds(UsersAfterAll(initial, calls), database, MakeUserName(b), LiveIn(initial, calls, database)[b])
  {
    UsersPerDatabase(initial, calls, database);
    LiveInTheOne(initial, calls, database);
  }

  /**
    What an unreported rebind breaks: the binding stays live with the password reported for it before, but that is no
    longer the server's, unless the new one happens to be the same.
  */
  lemma UnreportedRebind(users: Users, call: Call, ledger: Ledger, live: map<string, string>)
    requires call.Generate? && call.Writes() && call.write.DoneUnreported?
    requires call.bindingID in ledger.live && call.bindingID in live
    requires Holds(users, call.Database(), MakeUserName(call.bindingID), live[call.bindingID])
    ensures ReportOf(users, call).FailedAtWrite?
    ensures Book(ledger, call, ReportOf(users, call)) == ledger
    ensures LiveAfter(live, users, call, call.Database()) == live
    ensures Holds(UsersAfter(users, call), call.Database(), MakeUserName(call.bindingID), live[call.bindingID])
            <==> call.password.value == live[call.bindingID]
  {
    UpsertedHolds(users, call.Database(), MakeUserName(call.bindingID), call.password.value);
  }

  // ---------- listings that change ----------

  function Bind(bindingID: string, listing: seq<string>, password: string): Call {
    Generate(bindingID, Session(Success(listing)), Success(password), Done)
  }

  function Unbind(bindingID: string, listing: seq<string>): Call {
    Revoke(bindingID, Session(Success(listing)), Done)
  }

  ghost predicate Nowhere(users: Users, bindingID: string) {
    forall d :: MakeUserName(bindingID) !in UsersOf(users, d)
  }

  /**
    An unhindered Unbind undoes a Bind iff the two listings lead to the same database: exactly then it is reported, and
    exactly then no database holds the binding's user afterwards.
  */
  lemma UnbindUndoesBind(users: Users, bindingID: string, password: string, l1: seq<string>, l2: seq<string>)
    requires Nowhere(users, bindingID)
    ensures var bound := UsersAfter(users, Bind(bindingID, l1, password));
            var same := ChooseDatabase(l1, DEFAULT_DATABASE) == ChooseDatabase(l2, DEFAULT_DATABASE);
            && (ReportOf(bound, Unbind(bindingID, l2)).Reported? <==> same)
            && (Nowhere(UsersAfter(bound, Unbind(bindingID, l2)), bindingID) <==> same)
  {
    var d1, d2 := ChooseDatabase(l1, DEFAULT_DATABASE), ChooseDatabase(l2, DEFAULT_DATABASE);
    var name := MakeUserName(bindingID);
    var bound := UsersAfter(users, Bind(bindingID, l1, password));
    var unbound := UsersAfter(bound, Unbind(bindingID, l2));
    forall d
      ensures name in UsersOf(bound, d) <==> d == d1
      ensures name in UsersOf(unbound, d) <==> d == d1 && d != d2
    {
      assert name !in UsersOf(users, d);
    }
    if d1 != d2 {
      assert name in UsersOf(unbound, d1);
    }
  }

  lemma UsersAfterThree(users: Users, a: Call, b: Call, c: Call)
    ensures UsersAfterAll(users, [a]) == UsersAfter(users, a)
    ensures UsersAfterAll(users, [a, b]) == UsersAfter(UsersAfter(users, a), b)
    ensures UsersAfterAll(users, [a, b, c]) == UsersAfter(UsersAfter(UsersAfter(users, a), b), c)
  {
    assert [a][..0] == [] && [a, b][..1] == [a] && [a, b, c][..2] == [a, b];
    assert UsersAfterAll(users, []) == users;
    assert UsersAfterAll(users, [a]) == UsersAfter(UsersAfterAll(users, []), a);
    assert UsersAfterAll(users, [a, b]) == UsersAfter(UsersAfterAll(users, [a]), b);
  }

  lemma LiveAfterThree(users: Users, a: Call, b: Call, c: Call)
    requires ReportOf(users, a).Reported? && ReportOf(UsersAfter(users, a), b).Reported?
    requires ReportOf(UsersAfter(UsersAfter(users, a), b), c).Reported?
    requires a.Generate? && b.Generate? && c.Revoke? && a.bindingID == b.bindingID == c.bindingID
    ensures LiveBindings(users, [a, b, c]) == {}
  {
    UsersAfterThree(users, a, b, c);
    assert [a][..0] == [] && [a, b][..1] == [a] && [a, b, c][..2] == [a, b];
    assert UsersAfterAll(users, []) == users;
    assert LiveBindings(users, [a]) == {a.bindingID};
    assert LiveBindings(users, [a, b]) == {a.bindingID};
  }

  /**
    A rebind under another listing leaks: Bind, Bind again and Unbind are all reported and no binding is live, yet the
    first database still holds the user iff the second listing led elsewhere.
  */
  lemma RebindLeaks(users: Users, bindingID: string, p1: string, p2: string, l1: seq<string>, l2: seq<string>)
    requires Nowhere(users, bindingID)
    ensures var calls := [Bind(bindingID, l1, p1), Bind(bindingID, l2, p2), Unbind(bindingID, l2)];
            && (forall i :: 0 <= i < 3 ==> ReportOf(UsersAfterAll(users, calls[..i]), calls[i]).Reported?)
            && LiveBindings(users, calls) == {}
            && (MakeUserName(bindingID) in UsersOf(UsersAfterAll(users, calls), ChooseDatabase(l1, DEFAULT_DATABASE))
                <==> ChooseDatabase(l1, DEFAULT_DATABASE) != ChooseDatabase(l2, DEFAULT_DATABASE))
  {
    var a, b, c := Bind(bindingID, l1, p1), Bind(bindingID, l2, p2), Unbind(bindingID, l2);
    assert [a, b, c][..0] == [] && [a, b, c][..1] == [a] && [a, b, c][..2] == [a, b];
    UsersAfterThree(users, a, b, c);
    LiveAfterThree(users, a, b, c);
  }

  /** It happens when a db_* name shows up between the two Binds. */
  lemma NewNameLeaks(bindingID: string, p1: string, p2: string)
    ensures var calls := [Bind(bindingID, ["admin"], p1), Bind(bindingID, ["admin", "db_1"], p2),
                          Unbind(bindingID, ["admin", "db_1"])];
            && LiveBindings(map[], calls) == {}
            && MakeUserName(bindingID) in UsersOf(UsersAfterAll(map[], calls), DEFAULT_DATABASE)
  {
    NewNameChosen();
    RebindLeaks(map[], bindingID, p1, p2, ["admin"], ["admin", "db_1"]);
  }

  lemma NewNameChosen()
    ensures ChooseDatabase(["admin"], DEFAULT_DATABASE) == DEFAULT_DATABASE
    ensures ChooseDatabase(["admin", "db_1"], DEFAULT_DATABASE) == "db_1" != DEFAULT_DATABASE
  {
    assert "admin"[0] == 'a' && "db_"[0] == 'd' && DEFAULT_DATABASE[0] == 'd';
    assert "db_1"[..3] == "db_";
    ChosenIs(["admin"], DEFAULT_DATABASE, 1);
    ChosenIs(["admin", "db_1"], DEFAULT_DATABASE, 1);
  }
}
