/**
 * The plugin library's entities, src/lib.rs: servers, channels, connections
 * and clients with their identities, the two property getters over the host
 * application's native functions, and the all-or-nothing `Server::new`.
 */
module Ts3Plugin {
  import opened Wrappers

  type U16 = x: int | 0 <= x < 0x1_0000
  type U64 = x: int | 0 <= x < 0x1_0000_0000_0000_0000
  type I32 = x: int | -0x8000_0000 <= x < 0x8000_0000

  /** The host's result code: `Error::Ok` or any other code it reports. */
  datatype Error = Ok | HostError(code: nat)

  /** The `VirtualServerProperties` that `Server::new` asks the host for. */
  datatype VirtualServerProperty =
    | UniqueIdentifier | Name | NamePhonetic | Platform | Version
    | CodecEncryptionMode | HostbannerUrl | HostbannerGfxUrl | HostbannerGfxInterval
    | PrioritySpeakerDimmModificator | HostbuttonTooltip | HostbuttonUrl | HostbuttonGfxUrl
    | IconId | ReservedSlots | AskForPrivilegekey | HostbannerMode
    | ChannelTempDeleteDelayDefault | Hostmessage | HostmessageMode

  /**
   * The host's `get_server_variable_as_string` and `get_server_variable_as_int`:
   * for a server id and a property, the result code and the value written to
   * the out-parameter.
   */
  datatype Host = Host(
    stringVariable: (U64, VirtualServerProperty) -> (Error, string),
    intVariable: (U64, VirtualServerProperty) -> (Error, I32))

  /** `chrono::Duration`, kept as its number of seconds. */
  datatype Duration = Duration(seconds: int)

  /** The clock reading `UTC::now()` gives. */
  datatype DateTime = DateTime(ticks: int)

  datatype Permissions = Permissions

  /** The enums `Server::new` transmutes host integers into, kept as the raw integer. */
  datatype CodecEncryption = CodecEncryption(raw: I32)
  datatype HostbannerModeValue = HostbannerModeValue(raw: I32)
  datatype HostmessageModeValue = HostmessageModeValue(raw: I32)

  /** Server properties that have to be fetched explicitly. */
  datatype OptionalServerData = OptionalServerData(
    welcomeMessage: string,
    maxClients: I32,
    clientsOnline: I32,
    channelsOnline: I32,
    clientConnections: I32,
    queryClientConnections: I32,
    queryClientsOnline: I32,
    uptime: Duration,
    password: bool,
    maxDownloadTotalBandwith: I32,
    maxUploadTotalBandwith: I32,
    downloadQuota: I32,
    uploadQuota: I32,
    monthBytesDownloaded: I32,
    monthBytesUploaded: I32,
    totalBytesDownloaded: I32,
    totalBytesUploaded: I32,
    complainAutobanCount: I32,
    complainAutobanTime: Duration,
    complainRemoveTime: Duration,
    minClientsInChannelBeforeForcedSilence: I32,
    antifloodPointsTickReduce: I32,
    antifloodPointsNeededCommandBlock: I32,
    antifloodPointsNeededIpBlock: I32,
    port: I32,
    autostart: bool,
    machineId: I32,
    neededIdentitySecurityLevel: I32,
    logClient: bool,
    logQuery: bool,
    logChannel: bool,
    logPermissions: bool,
    logServer: bool,
    logFiletransfer: bool,
    minClientVersion: string,
    totalPacketlossSpeech: I32,
    totalPacketlossKeepalive: I32,
    totalPacketlossControl: I32,
    totalPacketlossTotal: I32,
    totalPing: I32,
    weblistEnabled: bool)

  /** Server properties that are available at the start but not updated. */
  datatype OutdatedServerData = OutdatedServerData(hostmessage: string, hostmessageMode: HostmessageModeValue)

  datatype Server = Server(
    id: U64,
    uid: string,
    name: string,
    namePhonetic: string,
    platform: string,
    version: string,
    created: DateTime,
    codecEncryptionMode: CodecEncryption,
    defaultServerGroup: Permissions,
    defaultChannelGroup: Permissions,
    defaultChannelAdminGroup: Permissions,
    hostbannerUrl: string,
    hostbannerGfxUrl: string,
    hostbannerGfxInterval: Duration,
    prioritySpeakerDimmModificator: I32,
    hostbuttonTooltip: string,
    hostbuttonUrl: string,
    hostbuttonGfxUrl: string,
    iconId: I32,
    reservedSlots: I32,
    askForPrivilegekey: bool,
    hostbannerMode: HostbannerModeValue,
    channelTempDeleteDelayDefault: Duration,
    outdatedData: OutdatedServerData,
    optionalData: Option<OptionalServerData>)

  /** A channel; `server` is the server it belongs to. */
  datatype Channel = Channel(id: U64, server: Server)

  datatype Client = Client(uid: string, name: string)

  datatype Connection = Connection(id: U16, server: Server, client: Client, talking: bool)

  // -------------------------------------------------------------- identity

  /** `Server == Server`: servers are the same when their ids are. */
  function ServerEq(a: Server, b: Server): (r: bool)
    ensures r <==> a.id == b.id
  {
    a.id == b.id
  }

  /** `Channel == Channel`: the same server and the same channel id. */
  function ChannelEq(a: Channel, b: Channel): (r: bool)
    ensures r <==> a.server.id == b.server.id && a.id == b.id
  {
    ServerEq(a.server, b.server) && a.id == b.id
  }

  /** `Connection == Connection`: the same server and the same connection id. */
  function ConnectionEq(a: Connection, b: Connection): (r: bool)
    ensures r <==> a.server.id == b.server.id && a.id == b.id
  {
    ServerEq(a.server, b.server) && a.id == b.id
  }

  /** `Client == Client`: the same unique identifier. */
  function ClientEq(a: Client, b: Client): (r: bool)
    ensures r <==> a.uid == b.uid
  {
    a.uid == b.uid
  }

  /**
   * Each of the four `PartialEq` impls is an equivalence, as the empty `Eq`
   * impls of src/lib.rs:146, 243, 251 and 259 claim without proof.
   */
  lemma IdentitiesAreEquivalences(s1: Server, s2: Server, s3: Server, h1: Channel, h2: Channel, h3: Channel,
                                  n1: Connection, n2: Connection, n3: Connection,
                                  c1: Client, c2: Client, c3: Client)
    ensures ServerEq(s1, s1) && (ServerEq(s1, s2) ==> ServerEq(s2, s1))
    ensures ServerEq(s1, s2) && ServerEq(s2, s3) ==> ServerEq(s1, s3)
    ensures ChannelEq(h1, h1) && (ChannelEq(h1, h2) ==> ChannelEq(h2, h1))
    ensures ChannelEq(h1, h2) && ChannelEq(h2, h3) ==> ChannelEq(h1, h3)
    ensures ConnectionEq(n1, n1) && (ConnectionEq(n1, n2) ==> ConnectionEq(n2, n1))
    ensures ConnectionEq(n1, n2) && ConnectionEq(n2, n3) ==> ConnectionEq(n1, n3)
    ensures ClientEq(c1, c1) && (ClientEq(c1, c2) ==> ClientEq(c2, c1))
    ensures ClientEq(c1, c2) && ClientEq(c2, c3) ==> ClientEq(c1, c3)
  {
  }

  /**
   * A connection's identity ignores which client it carries and whether it
   * is talking, and a channel's or connection's identity follows the server's.
   */
  lemma ConnectionIdentityIgnoresClient(n: Connection, client: Client, talking: bool, s: Server)
    requires ServerEq(n.server, s)
    ensures ConnectionEq(n, n.(client := client, talking := talking))
    ensures ConnectionEq(n, n.(server := s))
  {
  }

  // ------------------------------------------------------------ properties

  /** What `get_property_as_string` returns for a given host answer. */
  function StringProperty(host: Host, id: U64, property: VirtualServerProperty): (r: Result<string, Error>)
    ensures r.Success? <==> host.stringVariable(id, property).0 == Ok
    ensures r.Success? ==> r.value == host.stringVariable(id, property).1
    ensures r.Failure? ==> r.error == host.stringVariable(id, property).0
  {
    var (res, name) := host.stringVariable(id, property);
    if res == Ok then Success(name) else Failure(res)
  }

  /** What `get_property_as_int` returns for a given host answer. */
  function IntProperty(host: Host, id: U64, property: VirtualServerProperty): (r: Result<I32, Error>)
    ensures r.Success? <==> host.intVariable(id, property).0 == Ok
    ensures r.Success? ==> r.value == host.intVariable(id, property).1
    ensures r.Failure? ==> r.error == host.intVariable(id, property).0
  {
    var (res, number) := host.intVariable(id, property);
    if res == Ok then Success(number) else Failure(res)
  }

  /**
   * `Server::get_property_as_string`: the host fills the out-parameter and
   * reports a code; `Ok` yields the string, any other code is the error.
   */
  method GetPropertyAsString(host: Host, id: U64, property: VirtualServerProperty)
    returns (r: Result<string, Error>)
    ensures r == StringProperty(host, id, property)
  {
    var name := "";
    var res: Error;
    res, name := host.stringVariable(id, property).0, host.stringVariable(id, property).1;
    match res {
      case Ok => r := Success(name);
      case _ => r := Failure(res);
    }
  }

  /**
   * `Server::get_property_as_int`: the out-parameter starts at 0 and the
   * host overwrites it; `Ok` yields the number, any other code is the error.
   */
  method GetPropertyAsInt(host: Host, id: U64, property: VirtualServerProperty)
    returns (r: Result<I32, Error>)
    ensures r == IntProperty(host, id, property)
  {
    var number: I32 := 0;
    var res: Error;
    res, number := host.intVariable(id, property).0, host.intVariable(id, property).1;
    match res {
      case Ok => r := Success(number);
      case _ => r := Failure(res);
    }
  }

  // ------------------------------------------------------------ Server::new

  /** One native read of `Server::new`: a string or an integer property. */
  datatype Fetch = AsString(property: VirtualServerProperty) | AsInt(property: VirtualServerProperty)

  /** What one accepted read yields. */
  datatype Answer = Text(text: string) | Number(number: I32)

  /**
   * The reads of `Server::new`, in source order, with the properties read
   * for the banner interval and the temporary-channel delete delay as
   * parameters.
   */
  function FetchOrder(intervalProperty: VirtualServerProperty, deleteDelayProperty: VirtualServerProperty)
    : (r: seq<Fetch>)
    ensures |r| == 20
    ensures r[8] == AsInt(intervalProperty) && r[17] == AsInt(deleteDelayProperty)
    ensures forall k :: 0 <= k < |r| ==> (r[k].AsString? <==> k in {0, 1, 2, 3, 4, 6, 7, 10, 11, 12, 18})
    ensures forall k :: 0 <= k < |r| && k != 8 && k != 17 ==>
              r[k].property !in {HostbannerGfxInterval, ChannelTempDeleteDelayDefault}
  {
    [AsString(UniqueIdentifier), AsString(Name), AsString(NamePhonetic), AsString(Platform),
     AsString(Version), AsInt(CodecEncryptionMode), AsString(HostbannerUrl), AsString(HostbannerGfxUrl),
     AsInt(intervalProperty), AsInt(PrioritySpeakerDimmModificator), AsString(HostbuttonTooltip),
     AsString(HostbuttonUrl), AsString(HostbuttonGfxUrl), AsInt(IconId), AsInt(ReservedSlots),
     AsInt(AskForPrivilegekey), AsInt(HostbannerMode), AsInt(deleteDelayProperty), AsString(Hostmessage),
     AsInt(HostmessageMode)]
  }

  /** The code the host reports for one read. */
  function Code(host: Host, id: U64, fetch: Fetch): Error {
    match fetch
    case AsString(p) => host.stringVariable(id, p).0
    case AsInt(p) => host.intVariable(id, p).0
  }

  /** The value the host writes to the out-parameter of one read. */
  function Written(host: Host, id: U64, fetch: Fetch): Answer {
    match fetch
    case AsString(p) => Text(host.stringVariable(id, p).1)
    case AsInt(p) => Number(host.intVariable(id, p).1)
  }

  /** One read through the matching getter. */
  function Read(host: Host, id: U64, fetch: Fetch): (r: Result<Answer, Error>)
    ensures r.Success? <==> Code(host, id, fetch) == Ok
    ensures r.Success? ==> r.value == Written(host, id, fetch)
    ensures r.Failure? ==> r.error == Code(host, id, fetch)
  {
    match fetch
    case AsString(p) =>
      var text :- StringProperty(host, id, p);
      Success(Text(text))
    case AsInt(p) =>
      var number :- IntProperty(host, id, p);
      Success(Number(number))
  }

  /**
   * The reads of `plan` one after the other, each `try!` returning the
   * first error before any later read is made.
   */
  function Run(host: Host, id: U64, plan: seq<Fetch>): (r: Result<seq<Answer>, Error>)
    ensures r.Success? ==> |r.value| == |plan|
    ensures r.Success? ==> forall k :: 0 <= k < |plan| ==> r.value[k] == Written(host, id, plan[k])
  {
    if plan == [] then Success([])
    else
      var first :- Read(host, id, plan[0]);
      var rest :- Run(host, id, plan[1..]);
      Success([first] + rest)
  }

  /** The first read of `plan` that the host refuses, and its code. */
  function FirstRefusal(host: Host, id: U64, plan: seq<Fetch>): (r: Option<Error>)
    ensures r.Some? ==> r.value != Ok
  {
    if plan == [] then None
    else if Code(host, id, plan[0]) != Ok then Some(Code(host, id, plan[0]))
    else FirstRefusal(host, id, plan[1..])
  }

  /**
   * `FirstRefusal` finds nothing exactly when every read is accepted, and
   * otherwise reports a refused read all of whose predecessors were accepted.
   */
  lemma {:induction false} FirstRefusalMeaning(host: Host, id: U64, plan: seq<Fetch>)
    ensures FirstRefusal(host, id, plan).None? <==> forall k :: 0 <= k < |plan| ==> Code(host, id, plan[k]) == Ok
    ensures FirstRefusal(host, id, plan).Some? ==>
              exists j :: 0 <= j < |plan| && Code(host, id, plan[j]) == FirstRefusal(host, id, plan).value
                          && forall k :: 0 <= k < j ==> Code(host, id, plan[k]) == Ok
  {
    if plan != [] {
      FirstRefusalMeaning(host, id, plan[1..]);
      if Code(host, id, plan[0]) == Ok {
        if FirstRefusal(host, id, plan).Some? {
          var j :| 0 <= j < |plan[1..]| && Code(host, id, plan[1..][j]) == FirstRefusal(host, id, plan[1..]).value
                   && forall k :: 0 <= k < j ==> Code(host, id, plan[1..][k]) == Ok;
          forall k | 0 < k < j + 1
            ensures Code(host, id, plan[k]) == Ok
          {
            assert plan[k] == plan[1..][k - 1];
          }
          assert Code(host, id, plan[j + 1]) == FirstRefusal(host, id, plan).value;
        } else {
          forall k | 0 <= k < |plan|
            ensures Code(host, id, plan[k]) == Ok
          {
            if k > 0 {
              assert plan[k] == plan[1..][k - 1];
            }
          }
        }
      }
    }
  }

  /**
   * Running a plan is all or nothing: it fails exactly when one of its
   * reads is refused, and then with the code of the first refused read.
   */
  lemma {:induction false} RunAllOrNothing(host: Host, id: U64, plan: seq<Fetch>)
    ensures Run(host, id, plan).Failure? <==> FirstRefusal(host, id, plan).Some?
    ensures Run(host, id, plan).Failure? ==> Run(host, id, plan).error == FirstRefusal(host, id, plan).value
  {
    if plan != [] {
      RunAllOrNothing(host, id, plan[1..]);
    }
  }

  /** The answers `Server::new` gets hold a string where it read a string and a number where it read a number. */
  predicate Fits(plan: seq<Fetch>, answers: seq<Answer>) {
    && |answers| == |plan|
    && forall k :: 0 <= k < |plan| ==> (answers[k].Text? <==> plan[k].AsString?)
  }

  /**
   * The construction at the end of `Server::new`: the answers in read order
   * become the fields, with the codec and mode enums kept as the integer,
   * the two Durations in seconds and the privilege-key flag as "nonzero".
   */
  function Assemble(id: U64, now: DateTime, intervalProperty: VirtualServerProperty,
                    deleteDelayProperty: VirtualServerProperty, answers: seq<Answer>): (s: Server)
    requires Fits(FetchOrder(intervalProperty, deleteDelayProperty), answers)
    ensures s.id == id && s.created == now && s.optionalData == None
    ensures s.hostbannerGfxInterval == Duration(answers[8].number)
    ensures s.channelTempDeleteDelayDefault == Duration(answers[17].number)
    ensures s.askForPrivilegekey <==> answers[15].number != 0
  {
    Server(
      id, answers[0].text, answers[1].text, answers[2].text, answers[3].text, answers[4].text, now,
      CodecEncryption(answers[5].number),
      Permissions, Permissions, Permissions,
      answers[6].text, answers[7].text,
      Duration(answers[8].number),
      answers[9].number,
      answers[10].text, answers[11].text, answers[12].text,
      answers[13].number, answers[14].number,
      answers[15].number != 0,
      HostbannerModeValue(answers[16].number),
      Duration(answers[17].number),
      OutdatedServerData(answers[18].text, HostmessageModeValue(answers[19].number)),
      None)
  }

  /**
   * The body of `Server::new`: every read in source order, the first
   * refused one returning its code, then the construction.
   */
  function NewFetching(host: Host, id: U64, now: DateTime,
                       intervalProperty: VirtualServerProperty, deleteDelayProperty: VirtualServerProperty)
    : (r: Result<Server, Error>)
    ensures r.Success? ==> ServerFetched(host, id, now, intervalProperty, deleteDelayProperty, r.value)
  {
    var answers :- Run(host, id, FetchOrder(intervalProperty, deleteDelayProperty));
    Success(Assemble(id, now, intervalProperty, deleteDelayProperty, answers))
  }

  /**
   * What a server built by `Server::new` holds: its own id, the clock
   * reading, every fetched value in its field (ints kept, Durations in
   * seconds, the privilege-key flag as "nonzero"), the host message in the
   * outdated data, and no optional data.
   */
  predicate ServerFetched(host: Host, id: U64, now: DateTime, intervalProperty: VirtualServerProperty,
                          deleteDelayProperty: VirtualServerProperty, s: Server)
  {
    && s.id == id
    && s.uid == host.stringVariable(id, UniqueIdentifier).1
    && s.name == host.stringVariable(id, Name).1
    && s.namePhonetic == host.stringVariable(id, NamePhonetic).1
    && s.platform == host.stringVariable(id, Platform).1
    && s.version == host.stringVariable(id, Version).1
    && s.created == now
    && s.codecEncryptionMode == CodecEncryption(host.intVariable(id, CodecEncryptionMode).1)
    && s.hostbannerUrl == host.stringVariable(id, HostbannerUrl).1
    && s.hostbannerGfxUrl == host.stringVariable(id, HostbannerGfxUrl).1
    && s.hostbannerGfxInterval == Duration(host.intVariable(id, intervalProperty).1)
    && s.prioritySpeakerDimmModificator == host.intVariable(id, PrioritySpeakerDimmModificator).1
    && s.hostbuttonTooltip == host.stringVariable(id, HostbuttonTooltip).1
    && s.hostbuttonUrl == host.stringVariable(id, HostbuttonUrl).1
    && s.hostbuttonGfxUrl == host.stringVariable(id, HostbuttonGfxUrl).1
    && s.iconId == host.intVariable(id, IconId).1
    && s.reservedSlots == host.intVariable(id, ReservedSlots).1
    && (s.askForPrivilegekey <==> host.intVariable(id, AskForPrivilegekey).1 != 0)
    && s.hostbannerMode == HostbannerModeValue(host.intVariable(id, HostbannerMode).1)
    && s.channelTempDeleteDelayDefault == Duration(host.intVariable(id, deleteDelayProperty).1)
    && s.outdatedData == OutdatedServerData(host.stringVariable(id, Hostmessage).1,
                                            HostmessageModeValue(host.intVariable(id, HostmessageMode).1))
    && s.optionalData == None
  }

  /**
   * `Server::new` is all or nothing: it fails exactly when one of its reads
   * is refused, and then with the code of the first refused read in source
   * order.
   */
  lemma NewAllOrNothing(host: Host, id: U64, now: DateTime,
                        intervalProperty: VirtualServerProperty, deleteDelayProperty: VirtualServerProperty)
    ensures NewFetching(host, id, now, intervalProperty, deleteDelayProperty).Failure?
            <==> FirstRefusal(host, id, FetchOrder(intervalProperty, deleteDelayProperty)).Some?
    ensures NewFetching(host, id, now, intervalProperty, deleteDelayProperty).Failure? ==>
              NewFetching(host, id, now, intervalProperty, deleteDelayProperty).error
              == FirstRefusal(host, id, FetchOrder(intervalProperty, deleteDelayProperty)).value
  {
    RunAllOrNothing(host, id, FetchOrder(intervalProperty, deleteDelayProperty));
  }

  /**
   * `Server::new(id)` as written: the banner interval is read from
   * PrioritySpeakerDimmModificator, so it always equals that field in
   * seconds, and the delete delay is read from AskForPrivilegekey.
   */
  function New(host: Host, id: U64, now: DateTime): (r: Result<Server, Error>)
    ensures r.Success? ==> r.value.id == id && r.value.optionalData == None
    ensures r.Success? ==> r.value.hostbannerGfxInterval == Duration(r.value.prioritySpeakerDimmModificator)
    ensures r.Success? ==>
              r.value.channelTempDeleteDelayDefault == Duration(host.intVariable(id, AskForPrivilegekey).1)
    ensures r.Success? ==> (r.value.askForPrivilegekey <==> r.value.channelTempDeleteDelayDefault.seconds != 0)
  {
    NewFetching(host, id, now, PrioritySpeakerDimmModificator, AskForPrivilegekey)
  }

  /** `Server::new(id)` reading each Duration from the property it is named after. */
  function NewIntended(host: Host, id: U64, now: DateTime): (r: Result<Server, Error>)
    ensures r.Success? ==> r.value.id == id && r.value.optionalData == None
    ensures r.Success? ==> r.value.hostbannerGfxInterval == Duration(host.intVariable(id, HostbannerGfxInterval).1)
    ensures r.Success? ==>
              r.value.channelTempDeleteDelayDefault == Duration(host.intVariable(id, ChannelTempDeleteDelayDefault).1)
    ensures r.Success? ==> ServerFetched(host, id, now, HostbannerGfxInterval, ChannelTempDeleteDelayDefault, r.value)
  {
    NewFetching(host, id, now, HostbannerGfxInterval, ChannelTempDeleteDelayDefault)
  }

  /** A host that accepts every read: `Server::new` then succeeds, whichever properties it reads. */
  lemma NewSucceedsWhenAllAccepted(host: Host, id: U64, now: DateTime,
                                   intervalProperty: VirtualServerProperty, deleteDelayProperty: VirtualServerProperty)
    requires forall p :: host.stringVariable(id, p).0 == Ok
    requires forall p :: host.intVariable(id, p).0 == Ok
    ensures NewFetching(host, id, now, intervalProperty, deleteDelayProperty).Success?
  {
    var plan := FetchOrder(intervalProperty, deleteDelayProperty);
    forall k | 0 <= k < |plan|
      ensures Code(host, id, plan[k]) == Ok
    {
    }
    FirstRefusalMeaning(host, id, plan);
    NewAllOrNothing(host, id, now, intervalProperty, deleteDelayProperty);
  }

  /**
   * A host that accepts every read for server 1, with a 30-second banner
   * interval, a 60-second delete delay and 0 for every other number:
   * `Server::new` as written reports a 0-second banner interval and delete
   * delay.
   */
  lemma WrongPropertiesRead(host: Host)
    requires forall p :: host.stringVariable(1, p) == (Ok, "")
    requires forall p :: host.intVariable(1, p)
                         == (Ok, if p == HostbannerGfxInterval then 30
                                 else if p == ChannelTempDeleteDelayDefault then 60 else 0)
    ensures New(host, 1, DateTime(0)).Success?
    ensures New(host, 1, DateTime(0)).value.hostbannerGfxInterval == Duration(0)
    ensures New(host, 1, DateTime(0)).value.channelTempDeleteDelayDefault == Duration(0)
  {
    NewSucceedsWhenAllAccepted(host, 1, DateTime(0), PrioritySpeakerDimmModificator, AskForPrivilegekey);
  }

  /** On the same host, reading each Duration from its own property reports 30 and 60 seconds. */
  lemma IntendedPropertiesRead(host: Host)
    requires forall p :: host.stringVariable(1, p) == (Ok, "")
    requires forall p :: host.intVariable(1, p)
                         == (Ok, if p == HostbannerGfxInterval then 30
                                 else if p == ChannelTempDeleteDelayDefault then 60 else 0)
    ensures NewIntended(host, 1, DateTime(0)).Success?
    ensures NewIntended(host, 1, DateTime(0)).value.hostbannerGfxInterval == Duration(30)
    ensures NewIntended(host, 1, DateTime(0)).value.channelTempDeleteDelayDefault == Duration(60)
  {
    NewSucceedsWhenAllAccepted(host, 1, DateTime(0), HostbannerGfxInterval, ChannelTempDeleteDelayDefault);
    assert host.intVariable(1, HostbannerGfxInterval).1 == 30;
    assert host.intVariable(1, ChannelTempDeleteDelayDefault).1 == 60;
  }
}
