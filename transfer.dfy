/**
  The transfer operations of googlespreadsheet.go, each reduced to what it decides
  locally: the empty-data guard, the shaping, the destination range, the lazily cached
  client, and how a reply becomes an error. Authentication and the calls to the remote
  service are not computed here: what googleAuth would yield for the credentials and
  what the service answers are parameters, and the request that would be sent is
  returned as a value.
*/
module Transfer {
  import opened Wrappers
  import opened Values
  import opened RangeBuilder
  import opened DataShaper

  /** An authorised HTTP client; its contents are not part of this model. */
  datatype Client = Client(handle: nat)

  datatype Error =
    | AuthFailed(reason: string)       // the error googleAuth returned
    | Transport(reason: string)        // the error a service call returned
    | WrongHttpStatus(code: int)       // "Wrong http return code %d"
    | EmptyTemplate                    // a read that returned no rows

  /** A request handed to the spreadsheet service. */
  datatype Request =
    | Update(spreadsheetId: string, range: string, values: array<array?<Value>>)
    | Get(spreadsheetId: string, range: string)
    | Clear(spreadsheetId: string, range: string)

  /** Go's `Config`: credentials, the spreadsheet, and the client once authorised. */
  class Config {
    var googleCredentials: seq<bv8>
    var spreadsheetId: string
    var client: Option<Client>

    constructor (googleCredentials: seq<bv8>, spreadsheetId: string)
      ensures this.googleCredentials == googleCredentials
      ensures this.spreadsheetId == spreadsheetId
      ensures client == None
    {
      this.googleCredentials := googleCredentials;
      this.spreadsheetId := spreadsheetId;
      client := None;
    }
  }

  /**
    The check each operation starts with: when no client is cached, authorise with the
    credentials and cache the client; `auth` is what googleAuth yields for them. A
    cached client is kept and never replaced.
  */
  method Authorize(conf: Config, auth: Result<Client, string>) returns (err: Option<Error>)
    modifies conf`client
    ensures old(conf.client).Some? ==> conf.client == old(conf.client) && err == None
    ensures old(conf.client).None? && auth.Ok? ==> conf.client == Some(auth.value) && err == None
    ensures old(conf.client).None? && auth.Err? ==> conf.client == None && err == Some(AuthFailed(auth.error))
    ensures err == None <==> conf.client.Some?
  {
    err := None;
    if conf.client == None {
      match auth
      case Ok(c) =>
        conf.client := Some(c);
      case Err(e) =>
        conf.client := None;
        err := Some(AuthFailed(e));
    }
  }

  /** Go's `len(data[0])`, where a nil row has length 0. */
  function Width(data: array<array?<Value>>): nat
    reads data
  {
    if data.Length == 0 || data[0] == null then 0 else data[0].Length
  }

  /** The outcome of an update call: a transport error, or a status outside [200, 299]. */
  function UpdateOutcome(reply: Result<int, string>): (err: Option<Error>)
    ensures err == None <==> reply.Ok? && 200 <= reply.value <= 299
    ensures reply.Err? ==> err == Some(Transport(reply.error))
    ensures reply.Ok? && !(200 <= reply.value <= 299) ==> err == Some(WrongHttpStatus(reply.value))
  {
    match reply
    case Err(e) => Some(Transport(e))
    case Ok(code) =>
      if code < 200 || code > 299 then Some(WrongHttpStatus(code)) else None
  }

  /** The outcome of a read call: the rows received, unless there are none. */
  function ReadOutcome(reply: Result<seq<seq<Value>>, string>): (r: Result<seq<seq<Value>>, Error>)
    ensures r.Ok? <==> reply.Ok? && |reply.value| > 0
    ensures r.Ok? ==> r.value == reply.value
    ensures reply.Ok? && |reply.value| == 0 ==> r == Err(EmptyTemplate)
    ensures reply.Err? ==> r == Err(Transport(reply.error))
  {
    match reply
    case Err(e) => Err(Transport(e))
    case Ok(rows) => if |rows| == 0 then Err(EmptyTemplate) else Ok(rows)
  }

  /**
    DataArrayToGoogleSpreadSheet: data with no rows, or an empty first row, is a
    success that builds nothing, authorises nothing and sends nothing. Otherwise the
    destination range is built from the data's dimensions, the client is made sure of,
    and the whole array is sent as an update of that range.
  */
  method WriteArray(conf: Config, destSheet: string, destRow: int, destCol: int, data: array<array?<Value>>,
                    auth: Result<Client, string>, reply: Result<int, string>)
    returns (err: Option<Error>, sent: Option<Request>)
    modifies conf`client
    ensures data.Length == 0 || Width(data) == 0 ==> err == None && sent == None && conf.client == old(conf.client)
    ensures data.Length > 0 && Width(data) > 0 && old(conf.client).None? && auth.Err? ==>
              err == Some(AuthFailed(auth.error)) && sent == None && conf.client == None
    ensures data.Length > 0 && Width(data) > 0 && (old(conf.client).Some? || auth.Ok?) ==>
              && conf.client.Some?
              && (old(conf.client).Some? ==> conf.client == old(conf.client))
              && sent == Some(Update(conf.spreadsheetId, DestinationRange(destSheet, destRow, destCol, data.Length, Width(data)), data))
              && err == UpdateOutcome(reply)
  {
    var nbRows := data.Length;
    if nbRows == 0 {
      return None, None;
    }
    var nbCols := if data[0] == null then 0 else data[0].Length;
    if nbCols == 0 {
      return None, None;
    }
    var myRange := DestinationRange(destSheet, destRow, destCol, nbRows, nbCols);

    err := Authorize(conf, auth);
    if err.Some? {
      return err, None;
    }
    sent := Some(Update(conf.spreadsheetId, myRange, data));
    err := UpdateOutcome(reply);
  }

  /**
    DataMapToGoogleSpreadsheet: the same guard, then the rows are shaped into a header
    row and one row per input row (`keys` is their column order), and the shaped array is
    written at (row, col), so its range spans one row more than `data`.
  */
  method WriteMap(conf: Config, sheet: string, row: int, col: int, data: seq<map<string, Value>>,
                  auth: Result<Client, string>, reply: Result<int, string>)
    returns (err: Option<Error>, sent: Option<Request>, ghost keys: seq<string>)
    modifies conf`client
    ensures |data| == 0 || |data[0]| == 0 ==> err == None && sent == None && conf.client == old(conf.client)
    ensures |data| > 0 && |data[0]| > 0 && old(conf.client).None? && auth.Err? ==>
              err == Some(AuthFailed(auth.error)) && sent == None && conf.client == None
    ensures |data| > 0 && |data[0]| > 0 && (old(conf.client).Some? || auth.Ok?) ==>
              && conf.client.Some?
              && (old(conf.client).Some? ==> conf.client == old(conf.client))
              && err == UpdateOutcome(reply)
              && sent.Some? && sent.value.Update?
              && sent.value.spreadsheetId == conf.spreadsheetId
              && sent.value.range == DestinationRange(sheet, row, col, |data| + 1, |data[0]|)
              && IsColumnOrder(keys, data[0])
              && Shaped(sent.value.values, data, keys)
  {
    keys := [];
    var nbRows := |data|;
    if nbRows == 0 {
      return None, None, keys;
    }
    var nbCols := |data[0]|;
    if nbCols == 0 {
      return None, None, keys;
    }
    var valueData;
    valueData, keys := ShapeMapRows(data);
    err, sent := WriteArray(conf, sheet, row, col, valueData, auth, reply);
  }

  /** `valueData` is the header row of `keys` followed by the shaped rows of `data`. */
  ghost predicate Shaped(valueData: array<array?<Value>>, data: seq<map<string, Value>>, keys: seq<string>)
    reads valueData, set k | 0 <= k < valueData.Length :: valueData[k]
  {
    && valueData.Length == |data| + 1
    && valueData[0] != null && valueData[0][..] == HeaderCells(keys)
    && forall r :: 0 <= r < |data| ==> ShapedAt(valueData, r + 1, data[r], keys)
  }

  /**
    GoogleSpreadsheetToDataArray: reads the rows of a caller-given range; no rows at
    all is the "Empty template" error rather than an empty result.
  */
  method ReadArray(conf: Config, sourceRange: string, auth: Result<Client, string>,
                   reply: Result<seq<seq<Value>>, string>)
    returns (result: Result<seq<seq<Value>>, Error>, sent: Option<Request>)
    modifies conf`client
    ensures old(conf.client).None? && auth.Err? ==>
              result == Err(AuthFailed(auth.error)) && sent == None && conf.client == None
    ensures old(conf.client).Some? || auth.Ok? ==>
              && conf.client.Some?
              && (old(conf.client).Some? ==> conf.client == old(conf.client))
              && sent == Some(Get(conf.spreadsheetId, sourceRange))
              && result == ReadOutcome(reply)
  {
    var err := Authorize(conf, auth);
    if err.Some? {
      return Err(err.value), None;
    }
    sent := Some(Get(conf.spreadsheetId, sourceRange));
    result := ReadOutcome(reply);
  }

  /**
    ClearRange: clears the values of a caller-given range; the error of the call, if
    any, is returned unchanged.
  */
  method ClearRange(conf: Config, theRange: string, auth: Result<Client, string>, reply: Option<string>)
    returns (err: Option<Error>, sent: Option<Request>)
    modifies conf`client
    ensures old(conf.client).None? && auth.Err? ==>
              err == Some(AuthFailed(auth.error)) && sent == None && conf.client == None
    ensures old(conf.client).Some? || auth.Ok? ==>
              && conf.client.Some?
              && (old(conf.client).Some? ==> conf.client == old(conf.client))
              && sent == Some(Clear(conf.spreadsheetId, theRange))
              && (reply.None? ==> err == None)
              && (reply.Some? ==> err == Some(Transport(reply.value)))
  {
    err := Authorize(conf, auth);
    if err.Some? {
      return err, None;
    }
    sent := Some(Clear(conf.spreadsheetId, theRange));
    if reply.Some? {
      err := Some(Transport(reply.value));
    }
  }

  /**
    ClearSheet: the same clear call as ClearRange. It differs in two ways, neither
    modelled: it logs a failed call, and it overwrites the error of `sheets.New` instead
    of returning it.
  */
  method ClearSheet(conf: Config, sourceRange: string, auth: Result<Client, string>, reply: Option<string>)
    returns (err: Option<Error>, sent: Option<Request>)
    modifies conf`client
    ensures old(conf.client).None? && auth.Err? ==>
              err == Some(AuthFailed(auth.error)) && sent == None && conf.client == None
    ensures old(conf.client).Some? || auth.Ok? ==>
              && conf.client.Some?
              && (old(conf.client).Some? ==> conf.client == old(conf.client))
              && sent == Some(Clear(conf.spreadsheetId, sourceRange))
              && (reply.None? ==> err == None)
              && (reply.Some? ==> err == Some(Transport(reply.value)))
  {
    err, sent := ClearRange(conf, sourceRange, auth, reply);
  }
}
