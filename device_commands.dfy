/**
 * Device commands: a command for one device, and the `actions` sub-resource
 * that runs an action on a list of devices, cancels it, and reads its logs.
 * Every operation is one request whose decoded body is returned as it came.
 */
module DeviceCommands {
  import opened Wrappers
  import opened Text
  import opened Json
  import opened Exceptions
  import opened Client

  const ACTIONS_PATH := "/devices/actions"

  /** The path of the command endpoint of one device. */
  function CommandPath(deviceId: int): string
  {
    "/devices/" + IntToString(deviceId) + "/command"
  }

  /** The named filters of `logs` that are not None. */
  function NamedLogFilters(deviceId: Json, tagId: Json, limit: Json, offset: Json): map<string, Json>
  {
    LogFilter(LogFilter(LogFilter(LogFilter(map[], "device_id", deviceId), "tag_id", tagId), "limit", limit), "offset", offset)
  }

  /** The keys of the named filters that are not None. */
  function NamedKeys(deviceId: Json, tagId: Json, limit: Json, offset: Json): set<string>
  {
    (if deviceId != Null then {"device_id"} else {}) + (if tagId != Null then {"tag_id"} else {}) +
    (if limit != Null then {"limit"} else {}) + (if offset != Null then {"offset"} else {})
  }

  /**
   * The query of `logs`: each named filter that is not None, then the extra
   * parameters on top (an extra key replaces a named one).
   */
  function LogParams(deviceId: Json, tagId: Json, limit: Json, offset: Json, kwargs: map<string, Json>): (r: map<string, Json>)
    ensures r.Keys == NamedKeys(deviceId, tagId, limit, offset) + kwargs.Keys
    ensures forall k :: k in kwargs ==> r[k] == kwargs[k]
    ensures "device_id" !in kwargs && deviceId != Null ==> r["device_id"] == deviceId
    ensures "tag_id" !in kwargs && tagId != Null ==> r["tag_id"] == tagId
    ensures "limit" !in kwargs && limit != Null ==> r["limit"] == limit
    ensures "offset" !in kwargs && offset != Null ==> r["offset"] == offset
  {
    NamedFilters(deviceId, tagId, limit, offset);
    NamedLogFilters(deviceId, tagId, limit, offset) + kwargs
  }

  /** The named filters hold exactly the arguments that are not None, each under its own key. */
  lemma NamedFilters(deviceId: Json, tagId: Json, limit: Json, offset: Json)
    ensures var m := NamedLogFilters(deviceId, tagId, limit, offset);
      m.Keys == NamedKeys(deviceId, tagId, limit, offset) &&
      (deviceId != Null ==> m["device_id"] == deviceId) && (tagId != Null ==> m["tag_id"] == tagId) &&
      (limit != Null ==> m["limit"] == limit) && (offset != Null ==> m["offset"] == offset)
  {
    var p1 := LogFilter(map[], "device_id", deviceId);
    var p2 := LogFilter(p1, "tag_id", tagId);
    var p3 := LogFilter(p2, "limit", limit);
    var p4 := LogFilter(p3, "offset", offset);
    assert p4 == NamedLogFilters(deviceId, tagId, limit, offset);
  }

  /** `params[key] = value` when `value is not None`. */
  function LogFilter(params: map<string, Json>, key: string, value: Json): map<string, Json>
  {
    if value != Null then params[key := value] else params
  }

  /** With no filter and no extra parameter the query is empty. */
  lemma LogParamsEmpty()
    ensures LogParams(Null, Null, Null, Null, map[]) == map[]
  {
  }

  /** The statements of `logs` that build its query. */
  method BuildLogParams(deviceId: Json, tagId: Json, limit: Json, offset: Json, kwargs: map<string, Json>)
    returns (params: map<string, Json>)
    ensures params == LogParams(deviceId, tagId, limit, offset, kwargs)
  {
    params := map[];
    if deviceId != Null {
      params := params["device_id" := deviceId];
    }
    ghost var p1 := params;
    assert p1 == LogFilter(map[], "device_id", deviceId);
    if tagId != Null {
      params := params["tag_id" := tagId];
    }
    ghost var p2 := params;
    assert p2 == LogFilter(p1, "tag_id", tagId);
    if limit != Null {
      params := params["limit" := limit];
    }
    ghost var p3 := params;
    assert p3 == LogFilter(p2, "limit", limit);
    if offset != Null {
      params := params["offset" := offset];
    }
    assert params == LogFilter(p3, "offset", offset);
    assert params == NamedLogFilters(deviceId, tagId, limit, offset);
    params := params + kwargs;
  }

  /** `DeviceCommandsActions`: the `/devices/actions` endpoints. */
  class DeviceCommandsActions {
    const client: RmsClient

    constructor(client: RmsClient)
      ensures this.client == client
    {
      this.client := client;
    }

    /** `execute(**kwargs)`: POST the action fields as they are. */
    method Execute(kwargs: map<string, Json>) returns (r: Result<Json, Error>)
      requires client.Valid()
      modifies client
      ensures client.Made([Request(POST, ACTIONS_PATH, None, Object(kwargs), Null, Null)])
      ensures r == client.Returned()[0]
    {
      r := client.Post(ACTIONS_PATH, Object(kwargs));
      assert client.Returned() == [r];
    }

    /** `cancel(device_ids)`: POST `{"devices": device_ids}`. */
    method Cancel(deviceIds: Json) returns (r: Result<Json, Error>)
      requires client.Valid()
      modifies client
      ensures client.Made([Request(POST, ACTIONS_PATH + "/cancel", None, Object(map["devices" := deviceIds]), Null, Null)])
      ensures r == client.Returned()[0]
    {
      r := client.Post(ACTIONS_PATH + "/cancel", Object(map["devices" := deviceIds]));
      assert client.Returned() == [r];
    }

    /** `logs(device_id, tag_id, limit, offset, **kwargs)`: GET with the filters that are set. */
    method Logs(deviceId: Json, tagId: Json, limit: Json, offset: Json, kwargs: map<string, Json>)
      returns (r: Result<Json, Error>)
      requires client.Valid()
      modifies client
      ensures client.Made([Request(GET, ACTIONS_PATH + "/logs", Some(LogParams(deviceId, tagId, limit, offset, kwargs)), Null, Null, Null)])
      ensures r == client.Returned()[0]
    {
      var params := BuildLogParams(deviceId, tagId, limit, offset, kwargs);
      r := client.Get(ACTIONS_PATH + "/logs", Some(params));
      assert client.Returned() == [r];
    }
  }

  /** `DeviceCommandsResource`: per-device commands, with the actions sub-resource on the same client. */
  class DeviceCommandsResource {
    const client: RmsClient
    const actions: DeviceCommandsActions

    constructor(client: RmsClient)
      ensures this.client == client && fresh(actions) && actions.client == client
    {
      this.client := client;
      actions := new DeviceCommandsActions(client);
    }

    /** `execute(device_id, command_data)`: POST the command to the device's command path. */
    method Execute(deviceId: int, commandData: map<string, Json>) returns (r: Result<Json, Error>)
      requires client.Valid()
      modifies client
      ensures client.Made([Request(POST, CommandPath(deviceId), None, Object(commandData), Null, Null)])
      ensures r == client.Returned()[0]
    {
      r := client.Post(CommandPath(deviceId), Object(commandData));
      assert client.Returned() == [r];
    }
  }
}
