/** internal/service/service.go: the service layer between the bot and storage.
    Storage is a collaborator whose every call is an input: a function from the
    request the service builds to the result storage returns. */
module Service {
  import opened Wrappers

  /** storage.User as the service reads it. */
  datatype StorageUser = StorageUser(id: int, tgID: int, chatID: int, name: string, language: string)

  /** storage.LocalityRegion: one row of the fuzzy locality search. */
  datatype LocalityRegion = LocalityRegion(id: int, kind: string, name: string, regionName: string)

  /** A stored help as `SelectHelpsByUser` and the help lookups return it
      (only the columns the service reads). */
  datatype HelpRow = HelpRow(id: int, creatorID: int, categoryID: int, localityID: int)

  datatype HelpScan = HelpScan(creatorID: int, categoryID: int, localityID: int)

  /** sql.NullString */
  datatype NullString = NullString(str: string, valid: bool)

  datatype RequestScan = RequestScan(creatorID: int, categoryID: int, localityID: int, phone: NullString, description: string)

  /** storage.Interface, one function per call the service makes. */
  datatype Storage = Storage(
    upsertUser: StorageUser -> Result<StorageUser>,
    userByID: int -> Result<StorageUser>,
    selectLocalities: string -> Result<seq<LocalityRegion>>,
    insertHelp: HelpScan -> Option<Error>,
    selectHelpsByUser: int -> Result<seq<HelpRow>>,
    deleteHelp: int -> Option<Error>,
    insertRequest: RequestScan -> Option<Error>,
    selectHelpsForVillage: (int, int) -> Result<seq<HelpRow>>,
    selectHelpsForCity: (int, int) -> Result<seq<HelpRow>>)

  /** The service; its message channels are not modelled. */
  datatype Service = Service(storage: Storage, language: string)

  datatype CreateUser = CreateUser(tgID: int, chatID: int, name: string)
  datatype User = User(id: int, tgID: int, chatID: int, name: string)
  datatype Locality = Locality(id: int, kind: string, name: string, regionName: string)
  datatype CreateHelp = CreateHelp(creatorID: int, categoryID: int, localityID: int)
  datatype UserHelp = UserHelp(id: int, creatorID: int, categoryID: int, localityID: int)
  datatype NewRequestArgs = NewRequestArgs(creatorID: int, categoryID: int, localityID: int, localityType: string, phone: string, description: string)
  datatype HelpMessage = HelpMessage(chatID: int)
  datatype UserRequest = UserRequest(category: string, phone: string, locality: string, description: string)

  /** Go's zero values of the result structs. */
  const ZeroUser := User(0, 0, 0, "")
  const ZeroUserRequest := UserRequest("", "", "", "")

  /** The row NewUser asks storage to upsert. */
  function UpsertRequest(user: CreateUser): (r: StorageUser)
    ensures r.tgID == user.tgID && r.chatID == user.chatID && r.name == user.name
    ensures r.id == 0 && r.language == ""
  {
    StorageUser(0, user.tgID, user.chatID, user.name, "")
  }

  /** `NewUser`: upsert the user and copy the stored identity, or fail with a zero User. */
  function NewUser(s: Service, user: CreateUser): (r: (User, Option<Error>))
    ensures s.storage.upsertUser(UpsertRequest(user)).Err? ==>
              r == (ZeroUser, Some(s.storage.upsertUser(UpsertRequest(user)).error))
    ensures s.storage.upsertUser(UpsertRequest(user)).Ok? ==>
              var u := s.storage.upsertUser(UpsertRequest(user)).value;
              r.1 == None && r.0.id == u.id && r.0.tgID == u.tgID && r.0.chatID == u.chatID && r.0.name == u.name
  {
    match s.storage.upsertUser(UpsertRequest(user))
    case Err(e) => (ZeroUser, Some(e))
    case Ok(u) => (User(u.id, u.tgID, u.chatID, u.name), None)
  }

  /** The locality a storage row maps to: every field copied. */
  function ToLocality(row: LocalityRegion): (l: Locality)
    ensures l.id == row.id && l.kind == row.kind && l.name == row.name && l.regionName == row.regionName
  {
    Locality(row.id, row.kind, row.name, row.regionName)
  }

  /** `AutocompleteLocality`: one locality per storage row, in the rows' order;
      nil and the error when storage fails. */
  method AutocompleteLocality(s: Service, input: string) returns (r: Result<seq<Locality>>)
    ensures s.storage.selectLocalities(input).Err? ==> r == Err(s.storage.selectLocalities(input).error)
    ensures s.storage.selectLocalities(input).Ok? ==>
              var rows := s.storage.selectLocalities(input).value;
              r.Ok? && |r.value| == |rows| && forall i :: 0 <= i < |rows| ==> r.value[i] == ToLocality(rows[i])
  {
    match s.storage.selectLocalities(input)
    case Err(e) => return Err(e);
    case Ok(ls) =>
      var localities: seq<Locality> := [];
      var i := 0;
      while i < |ls|
        invariant 0 <= i <= |ls|
        invariant |localities| == i
        invariant forall j :: 0 <= j < i ==> localities[j] == ToLocality(ls[j])
      {
        localities := localities + [ToLocality(ls[i])];
        i := i + 1;
      }
      return Ok(localities);
  }

  /** `NewHelp`: insert the help with the request's creator, category and locality. */
  function NewHelp(s: Service, request: CreateHelp): (err: Option<Error>)
    ensures err == s.storage.insertHelp(HelpScan(request.creatorID, request.categoryID, request.localityID))
  {
    s.storage.insertHelp(HelpScan(request.creatorID, request.categoryID, request.localityID))
  }

  /** `UserHelps`: one entry per stored help, in order, with only CategoryID filled in. */
  method UserHelps(s: Service, userID: int) returns (r: Result<seq<UserHelp>>)
    ensures s.storage.selectHelpsByUser(userID).Err? ==> r == Err(s.storage.selectHelpsByUser(userID).error)
    ensures s.storage.selectHelpsByUser(userID).Ok? ==>
              var rows := s.storage.selectHelpsByUser(userID).value;
              r.Ok? && |r.value| == |rows| &&
              forall i :: 0 <= i < |rows| ==> r.value[i] == UserHelp(0, 0, rows[i].categoryID, 0)
  {
    match s.storage.selectHelpsByUser(userID)
    case Err(e) => return Err(e);
    case Ok(hs) =>
      var helps: seq<UserHelp> := [];
      var i := 0;
      while i < |hs|
        invariant 0 <= i <= |hs|
        invariant |helps| == i
        invariant forall j :: 0 <= j < i ==> helps[j] == UserHelp(0, 0, hs[j].categoryID, 0)
      {
        helps := helps + [UserHelp(0, 0, hs[i].categoryID, 0)];
        i := i + 1;
      }
      return Ok(helps);
  }

  /** `DeleteHelp`: storage's answer, unchanged. */
  function DeleteHelp(s: Service, helpID: int): (err: Option<Error>)
    ensures err == s.storage.deleteHelp(helpID)
  {
    s.storage.deleteHelp(helpID)
  }

  /** The two help lookups of NewRequest. */
  datatype HelpQuery = VillageQuery | CityQuery

  /** Villages and urban-type settlements are matched through their parent;
      every other locality type, including the unknown ones, by the city query. */
  function QueryFor(localityType: string): (q: HelpQuery)
    ensures q == VillageQuery <==> localityType in {"VILLAGE", "URBAN"}
  {
    if localityType == "VILLAGE" || localityType == "URBAN" then VillageQuery else CityQuery
  }

  function RunQuery(s: Service, q: HelpQuery, localityID: int, categoryID: int): Result<seq<HelpRow>> {
    match q
    case VillageQuery => s.storage.selectHelpsForVillage(localityID, categoryID)
    case CityQuery => s.storage.selectHelpsForCity(localityID, categoryID)
  }

  /** The request row NewRequest inserts; the phone is always stored as a valid value. */
  function RequestScanOf(request: NewRequestArgs): RequestScan {
    RequestScan(request.creatorID, request.categoryID, request.localityID,
                NullString(request.phone, true), request.description)
  }

  /** The creators' chats of the found helps, or the first creator lookup that fails. */
  function HelperChats(s: Service, hs: seq<HelpRow>): Result<seq<HelpMessage>> {
    if hs == [] then Ok([])
    else match s.storage.userByID(hs[0].creatorID)
      case Err(e) => Err(e)
      case Ok(u) =>
        match HelperChats(s, hs[1..])
        case Err(e) => Err(e)
        case Ok(rest) => Ok([HelpMessage(u.chatID)] + rest)
  }

  /** When every creator lookup succeeds, the messages are one per help, in the helps'
      order, each addressed to that help's creator. */
  lemma {:induction false} HelperChatsAll(s: Service, hs: seq<HelpRow>)
    requires forall i :: 0 <= i < |hs| ==> s.storage.userByID(hs[i].creatorID).Ok?
    ensures HelperChats(s, hs).Ok?
    ensures |HelperChats(s, hs).value| == |hs|
    ensures forall i :: 0 <= i < |hs| ==>
              HelperChats(s, hs).value[i] == HelpMessage(s.storage.userByID(hs[i].creatorID).value.chatID)
  {
    if hs != [] {
      assert s.storage.userByID(hs[0].creatorID).Ok?;
      HelperChatsAll(s, hs[1..]);
      forall i | 1 <= i < |hs|
        ensures HelperChats(s, hs).value[i] == HelpMessage(s.storage.userByID(hs[i].creatorID).value.chatID)
      {
        assert hs[1..][i - 1] == hs[i];
      }
    }
  }

  /** A single failing creator lookup aborts the whole fan-out. */
  lemma {:induction false} HelperChatsAbort(s: Service, hs: seq<HelpRow>, k: nat)
    requires k < |hs| && s.storage.userByID(hs[k].creatorID).Err?
    ensures HelperChats(s, hs).Err?
  {
    if k > 0 && s.storage.userByID(hs[0].creatorID).Ok? {
      assert hs[1..][k - 1] == hs[k];
      HelperChatsAbort(s, hs[1..], k - 1);
    }
  }

  /** `NewRequest`: insert the request, look up the helps of its locality and category
      with the query its locality type selects, and queue one message per help for the
      help's creator. `query` is the lookup made and `queued` the batch handed to the
      notification channel; an error at any step returns before anything is queued. */
  method NewRequest(s: Service, request: NewRequestArgs)
    returns (err: Option<Error>, query: Option<HelpQuery>, queued: Option<seq<HelpMessage>>)
    ensures s.storage.insertRequest(RequestScanOf(request)).Some? ==>
              err == s.storage.insertRequest(RequestScanOf(request)) && query.None? && queued.None?
    ensures s.storage.insertRequest(RequestScanOf(request)).None? ==>
              query == Some(QueryFor(request.localityType))
    ensures queued.Some? <==> err.None?
    ensures s.storage.insertRequest(RequestScanOf(request)).None? ==>
              var found := RunQuery(s, QueryFor(request.localityType), request.localityID, request.categoryID);
              if found.Err? then err == Some(found.error)
              else match HelperChats(s, found.value)
                   case Err(e) => err == Some(e)
                   case Ok(ms) => queued == Some(ms)
  {
    var ins := s.storage.insertRequest(RequestScanOf(request));
    if ins.Some? {
      return ins, None, None;
    }
    var q := QueryFor(request.localityType);
    query := Some(q);
    var found := RunQuery(s, q, request.localityID, request.categoryID);
    if found.Err? {
      return Some(found.error), query, None;
    }
    var hs := found.value;
    var helpMessages: seq<HelpMessage> := [];
    var i := 0;
    assert hs[0..] == hs;
    assert HelperChats(s, hs).Ok? ==> helpMessages + HelperChats(s, hs).value == HelperChats(s, hs).value;
    while i < |hs|
      invariant 0 <= i <= |hs|
      invariant HelperChats(s, hs[i..]).Ok? ==> HelperChats(s, hs) == Ok(helpMessages + HelperChats(s, hs[i..]).value)
      invariant HelperChats(s, hs[i..]).Err? ==> HelperChats(s, hs) == HelperChats(s, hs[i..])
    {
      var helper := s.storage.userByID(hs[i].creatorID);
      assert hs[i..][1..] == hs[i + 1..];
      assert hs[i..][0] == hs[i];
      if helper.Err? {
        assert HelperChats(s, hs[i..]) == Err(helper.error);
        return Some(helper.error), query, None;
      }
      if HelperChats(s, hs[i + 1..]).Ok? {
        assert HelperChats(s, hs[i..]).value == [HelpMessage(helper.value.chatID)] + HelperChats(s, hs[i + 1..]).value;
        assert helpMessages + HelperChats(s, hs[i..]).value
            == (helpMessages + [HelpMessage(helper.value.chatID)]) + HelperChats(s, hs[i + 1..]).value;
      }
      helpMessages := helpMessages + [HelpMessage(helper.value.chatID)];
      i := i + 1;
    }
    assert hs[|hs|..] == [];
    assert helpMessages + [] == helpMessages;
    return None, query, Some(helpMessages);
  }

  /** The request stubs: zero values and no error. */
  function UserRequests(s: Service, userID: int): (r: (seq<UserRequest>, Option<Error>))
    ensures r.0 == [] && r.1 == None
  {
    ([], None)
  }

  function UserRequestByID(s: Service, requestID: int): (r: (UserRequest, Option<Error>))
    ensures r.0 == ZeroUserRequest && r.1 == None
  {
    (ZeroUserRequest, None)
  }

  function DeleteRequest(s: Service, requestID: int): (err: Option<Error>)
    ensures err == None
  {
    None
  }
}
