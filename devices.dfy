/**
 * `DevicesResource`: the devices endpoint. Filters are checked against an
 * allow-list before any request is made, creation checks the required fields,
 * and monitoring is switched for a list of device ids in one request.
 */
module Devices {
  import opened Wrappers
  import opened Text
  import opened Json
  import opened Exceptions
  import opened Client
  import opened Base
  import JsonValues = Json

  const DEVICES_PATH := "/devices"

  /** The only filter keys the devices API accepts. */
  const ALLOWED_DEVICE_FILTERS: set<string> := {"status", "mac", "model", "company_id"}

  /** `_validate_filter_params`: fails iff some key is not allowed, naming the offending keys in sorted order. */
  function ValidateFilterParams(kwargs: map<string, Json>): (r: Outcome<Error>)
    ensures r.Fail? <==> exists k :: k in kwargs && k !in ALLOWED_DEVICE_FILTERS
    ensures r.Fail? ==> r.error == ValueError("Invalid filter parameters: " + Join(Sorted(kwargs.Keys - ALLOWED_DEVICE_FILTERS), ", ") +
                                              ". Allowed parameters are: " + Join(Sorted(ALLOWED_DEVICE_FILTERS), ", "))
  {
    var invalid := kwargs.Keys - ALLOWED_DEVICE_FILTERS;
    if invalid != {} then
      Fail(ValueError("Invalid filter parameters: " + Join(Sorted(invalid), ", ") +
                      ". Allowed parameters are: " + Join(Sorted(ALLOWED_DEVICE_FILTERS), ", ")))
    else Pass
  }

  /** A required field counts as missing when it is absent or None. */
  predicate Absent(kwargs: map<string, Json>, field: string)
  {
    field !in kwargs || kwargs[field] == Null
  }

  /** The always-required fields of `create`, with the labels the error message uses, in order. */
  const REQUIRED_FIELDS: seq<(string, string)> := [
    ("company_id", "Company ID"),
    ("device_series", "Device series"),
    ("serial", "Serial number"),
    ("password_confirmation", "Password confirmation")
  ]

  const MAC_LABEL := "MAC address (required for RUT/TCR devices)"
  const IMEI_LABEL := "IMEI (required for TRB devices)"

  /** The lower-cased device series, when it is truthy. */
  function Series(kwargs: map<string, Json>): Option<string>
  {
    var ds := Get(kwargs, "device_series", Null);
    if Truthy(ds) then Some(Lower(PyStr(ds))) else None
  }

  /** The labels of the always-required fields that are missing, in order. */
  function MissingRequired(kwargs: map<string, Json>, fields: seq<(string, string)>): (r: seq<string>)
    ensures |r| <= |fields|
  {
    if fields == [] then []
    else (if Absent(kwargs, fields[0].0) then [fields[0].1] else []) + MissingRequired(kwargs, fields[1..])
  }

  /** A label is reported for exactly the listed fields that are missing. */
  lemma {:induction false} MissingRequiredMembers(kwargs: map<string, Json>, fields: seq<(string, string)>, l: string)
    ensures l in MissingRequired(kwargs, fields) <==>
      exists i :: 0 <= i < |fields| && fields[i].1 == l && Absent(kwargs, fields[i].0)
  {
    if fields != [] {
      MissingRequiredMembers(kwargs, fields[1..], l);
      if l in MissingRequired(kwargs, fields[1..]) {
        var i :| 0 <= i < |fields[1..]| && fields[1..][i].1 == l && Absent(kwargs, fields[1..][i].0);
        assert fields[i + 1] == fields[1..][i];
      }
      if exists i :: 0 <= i < |fields| && fields[i].1 == l && Absent(kwargs, fields[i].0) {
        var i :| 0 <= i < |fields| && fields[i].1 == l && Absent(kwargs, fields[i].0);
        if i > 0 {
          assert fields[1..][i - 1] == fields[i];
        }
      }
    }
  }

  /** The series-dependent label that is missing, if any. */
  function MissingConditional(kwargs: map<string, Json>): seq<string>
  {
    match Series(kwargs)
    case None => []
    case Some(s) =>
      if s == "rut" || s == "tcr" then (if Absent(kwargs, "mac") then [MAC_LABEL] else [])
      else if s == "trb" then (if Absent(kwargs, "imei") then [IMEI_LABEL] else [])
      else []
  }

  /** Every missing field's label, in the order the error message lists them. */
  function MissingLabels(kwargs: map<string, Json>): seq<string>
  {
    MissingRequired(kwargs, REQUIRED_FIELDS) + MissingConditional(kwargs)
  }

  /** `_validate_create_params`: fails iff a label is missing, listing them all. */
  function CreateCheck(kwargs: map<string, Json>): Outcome<Error>
  {
    var missing := MissingLabels(kwargs);
    if missing == [] then Pass
    else Fail(ValueError("Missing required fields for device creation: " + Join(missing, ", ")))
  }

  /** The four always-required labels are distinct and none is a series-dependent one. */
  lemma RequiredLabelsDistinct()
    ensures forall i, j :: 0 <= i < j < |REQUIRED_FIELDS| ==> REQUIRED_FIELDS[i].1 != REQUIRED_FIELDS[j].1
    ensures forall i :: 0 <= i < |REQUIRED_FIELDS| ==> REQUIRED_FIELDS[i].1 != MAC_LABEL && REQUIRED_FIELDS[i].1 != IMEI_LABEL
  {
  }

  /** The create check reports an always-required field exactly when it is absent or None. */
  lemma RequiredReported(kwargs: map<string, Json>, i: nat)
    requires i < |REQUIRED_FIELDS|
    ensures REQUIRED_FIELDS[i].1 in MissingLabels(kwargs) <==> Absent(kwargs, REQUIRED_FIELDS[i].0)
  {
    var l := REQUIRED_FIELDS[i].1;
    MissingRequiredMembers(kwargs, REQUIRED_FIELDS, l);
    RequiredLabelsDistinct();
    assert l !in MissingConditional(kwargs);
  }

  /**
   * The create check asks for the mac exactly for a rut or tcr series and for the
   * imei exactly for a trb series (in any letter case), when that field is absent or None.
   */
  lemma ConditionalReported(kwargs: map<string, Json>)
    ensures MAC_LABEL in MissingLabels(kwargs) <==> (Series(kwargs) == Some("rut") || Series(kwargs) == Some("tcr")) && Absent(kwargs, "mac")
    ensures IMEI_LABEL in MissingLabels(kwargs) <==> Series(kwargs) == Some("trb") && Absent(kwargs, "imei")
  {
    MissingRequiredMembers(kwargs, REQUIRED_FIELDS, MAC_LABEL);
    MissingRequiredMembers(kwargs, REQUIRED_FIELDS, IMEI_LABEL);
    RequiredLabelsDistinct();
  }

  /** The create check fails iff some field is reported missing. */
  lemma CreateCheckSpec(kwargs: map<string, Json>)
    ensures CreateCheck(kwargs).Fail? <==> MissingLabels(kwargs) != []
    ensures CreateCheck(kwargs).Fail? ==>
      exists l :: l in MissingLabels(kwargs) && (l == MAC_LABEL || l == IMEI_LABEL || exists i :: 0 <= i < |REQUIRED_FIELDS| && REQUIRED_FIELDS[i].1 == l)
  {
    var missing := MissingLabels(kwargs);
    if missing != [] {
      var l := missing[0];
      assert l in missing;
      if l in MissingRequired(kwargs, REQUIRED_FIELDS) {
        MissingRequiredMembers(kwargs, REQUIRED_FIELDS, l);
      } else {
        assert l in MissingConditional(kwargs);
      }
    }
  }

  /** A complete rut device passes; the same without a mac fails naming the mac alone. */
  lemma RutNeedsMac()
    ensures var fields := map["company_id" := Int(1), "device_series" := Str("RUT"), "serial" := Str("123"),
                              "password_confirmation" := Str("pw")];
      CreateCheck(fields["mac" := Str("00:11")]) == Pass &&
      CreateCheck(fields) == Fail(ValueError("Missing required fields for device creation: " + MAC_LABEL))
  {
    var fields := map["company_id" := Int(1), "device_series" := Str("RUT"), "serial" := Str("123"),
                      "password_confirmation" := Str("pw")];
    var withMac := fields["mac" := Str("00:11")];
    assert Lower("RUT") == "rut";
    assert Series(fields) == Some("rut") && Series(withMac) == Some("rut");
    RequiredPresent(fields);
    RequiredPresent(withMac);
    assert MissingLabels(fields) == [MAC_LABEL];
    assert MissingLabels(withMac) == [];
  }

  /** With every always-required field set, none is reported. */
  lemma RequiredPresent(kwargs: map<string, Json>)
    requires forall i :: 0 <= i < |REQUIRED_FIELDS| ==> !Absent(kwargs, REQUIRED_FIELDS[i].0)
    ensures MissingRequired(kwargs, REQUIRED_FIELDS) == []
  {
    var r := MissingRequired(kwargs, REQUIRED_FIELDS);
    if r != [] {
      MissingRequiredMembers(kwargs, REQUIRED_FIELDS, r[0]);
      assert false;
    }
  }

  /** `_normalize_device_ids`: an int (or bool) becomes a one-element list, a list is kept, anything else is refused. */
  function IdList(deviceIds: Json): Result<seq<Json>, Error>
  {
    if AsNumber(deviceIds).Some? then Success([deviceIds])
    else if deviceIds.List? then Success(deviceIds.items)
    else Failure(ValueError("device_ids must be int or list[int], got " + TypeName(deviceIds)))
  }

  /** An id that is an int (`bool` included) and at least 1. */
  predicate ValidId(v: Json)
  {
    AsNumber(v).Some? && AsNumber(v).value >= 1
  }

  /** The invalid ids, in order. */
  function InvalidIds(ids: seq<Json>): (r: seq<Json>)
    ensures forall x :: x in r <==> x in ids && !ValidId(x)
  {
    if ids == [] then []
    else (if ValidId(ids[0]) then [] else [ids[0]]) + InvalidIds(ids[1..])
  }

  function NormalizeDeviceIds(deviceIds: Json): (r: Result<seq<Json>, Error>)
    ensures r.Success? ==> forall x :: x in r.value ==> ValidId(x)
    ensures r.Success? && deviceIds.List? ==> r.value == deviceIds.items
    ensures r.Success? && !deviceIds.List? ==> r.value == [deviceIds]
    ensures r.Failure? <==> IdList(deviceIds).Failure? || exists x :: x in IdList(deviceIds).value && !ValidId(x)
  {
    match IdList(deviceIds)
    case Failure(e) => Failure(e)
    case Success(ids) =>
      var invalid := InvalidIds(ids);
      if invalid != [] then
        assert invalid[0] in invalid;
        Failure(ValueError("Invalid device IDs: " + Repr(List(invalid)) + ". Device IDs must be integers >= 1"))
      else Success(ids)
  }

  /** One `{device_id, monitoring_enabled}` entry per id, in order. */
  function MonitoringEntries(ids: seq<Json>, enabled: bool): seq<Json>
  {
    seq(|ids|, i requires 0 <= i < |ids| => Object(map["device_id" := ids[i], "monitoring_enabled" := Int(if enabled then 1 else 0)]))
  }

  /**
   * The body `set_monitoring` sends: `data` lists one entry per id, in order;
   * each entry reads back its id, and its flag is 1 when enabling and 0 when disabling.
   */
  function MonitoringBody(ids: seq<Json>, enabled: bool): (r: Json)
    ensures r.Object? && r.fields.Keys == {"data"} && r.fields["data"].List?
    ensures |r.fields["data"].items| == |ids|
    ensures forall i :: 0 <= i < |ids| ==>
      var entry := r.fields["data"].items[i];
      entry.Object? && entry.fields.Keys == {"device_id", "monitoring_enabled"} &&
      entry.fields["device_id"] == ids[i] && entry.fields["monitoring_enabled"] == Int(if enabled then 1 else 0)
  {
    Object(map["data" := List(MonitoringEntries(ids, enabled))])
  }

  /** Disabling monitoring on devices 123 and 456 sends a 0 flag for each, in order. */
  lemma MonitoringBodyExample()
    ensures MonitoringBody([Int(123), Int(456)], false) ==
      Object(map["data" := List([Object(map["device_id" := Int(123), "monitoring_enabled" := Int(0)]),
                                 Object(map["device_id" := Int(456), "monitoring_enabled" := Int(0)])])])
  {
    assert MonitoringEntries([Int(123), Int(456)], false) ==
      [Object(map["device_id" := Int(123), "monitoring_enabled" := Int(0)]),
       Object(map["device_id" := Int(456), "monitoring_enabled" := Int(0)])];
  }

  /** One id becomes a one-element list; a list of valid ids, even an empty one, is kept. */
  lemma NormalizeAccepts()
    ensures NormalizeDeviceIds(Int(7)) == Success([Int(7)])
    ensures NormalizeDeviceIds(List([Int(1), Int(2)])) == Success([Int(1), Int(2)])
    ensures NormalizeDeviceIds(List([])) == Success([])
  {
    assert [Int(1), Int(2)][1..] == [Int(2)];
  }

  /** A list holding a zero is refused naming the zero. */
  lemma NormalizeRejectsId()
    ensures NormalizeDeviceIds(List([Int(3), Int(0)])) ==
      Failure(ValueError("Invalid device IDs: " + Repr(List([Int(0)])) + ". Device IDs must be integers >= 1"))
  {
    var bad := [Int(3), Int(0)];
    assert bad[1..] == [Int(0)];
    assert [Int(0)][1..] == [];
    assert InvalidIds(bad) == [Int(0)];
  }

  /** A string is refused naming its type. */
  lemma NormalizeRejectsType()
    ensures NormalizeDeviceIds(Str("5")) == Failure(ValueError("device_ids must be int or list[int], got str"))
  {
    assert "device_ids must be int or list[int], got " + "str" == "device_ids must be int or list[int], got str";
  }

  /** The body `create` sends: the fields, unchanged, as the only element of `data`. */
  function CreateBody(kwargs: map<string, Json>): (r: Json)
    ensures r.Object? && r.fields.Keys == {"data"}
    ensures r.fields["data"].List? && r.fields["data"].items == [Object(kwargs)]
  {
    Object(map["data" := List([Object(kwargs)])])
  }

  class DevicesResource {
    const base: BaseResource

    /** `DevicesResource(client)`: a resource on `/devices`. */
    constructor(client: RmsClient)
      ensures fresh(base) && base.client == client && base.path == DEVICES_PATH
    {
      base := new BaseResource(client, DEVICES_PATH);
    }

    /** `_validate_create_params(**kwargs)`: the loop over the required fields and the series rule. */
    method ValidateCreateParams(kwargs: map<string, Json>) returns (r: Outcome<Error>)
      ensures r == CreateCheck(kwargs)
    {
      var missing := CollectMissing(kwargs, REQUIRED_FIELDS);
      var deviceSeries := JsonValues.Get(kwargs, "device_series", Null);
      if Truthy(deviceSeries) {
        var lower := Lower(PyStr(deviceSeries));
        if lower == "rut" || lower == "tcr" {
          if "mac" !in kwargs || kwargs["mac"] == Null {
            missing := missing + [MAC_LABEL];
          }
        } else if lower == "trb" {
          if "imei" !in kwargs || kwargs["imei"] == Null {
            missing := missing + [IMEI_LABEL];
          }
        }
      }
      assert missing == MissingLabels(kwargs);
      if missing != [] {
        return Fail(ValueError("Missing required fields for device creation: " + Join(missing, ", ")));
      }
      return Pass;
    }

    /** The loop of `_validate_create_params` that collects the labels of the missing fields. */
    method CollectMissing(kwargs: map<string, Json>, fields: seq<(string, string)>) returns (missing: seq<string>)
      ensures missing == MissingRequired(kwargs, fields)
    {
      missing := [];
      var i := 0;
      while i < |fields|
        invariant 0 <= i <= |fields|
        invariant missing + MissingRequired(kwargs, fields[i..]) == MissingRequired(kwargs, fields)
      {
        var (field, name) := fields[i];
        assert fields[i..][1..] == fields[i + 1..];
        ghost var rest := MissingRequired(kwargs, fields[i + 1..]);
        assert MissingRequired(kwargs, fields[i..]) == (if Absent(kwargs, field) then [name] else []) + rest;
        if field !in kwargs || kwargs[field] == Null {
          assert (missing + [name]) + rest == missing + ([name] + rest);
          missing := missing + [name];
        } else {
          assert [] + rest == rest;
        }
        i := i + 1;
      }
      assert fields[i..] == [];
    }

    /** The effect of `_get_by_id(id)` that returned `r`. */
    twostate predicate FoundById(id: Id, new r: Result<Json, Error>)
      reads base.client
    {
      base.client.Made([Request(GET, IdPath(base.path, id), None, Null, Null, Null)]) &&
      r == Unwrapped(base.client.Returned()[0], "Device", id)
    }

    /** The effect of `_get_by_filters(**kwargs)` that returned `r`: nothing is sent for a disallowed key. */
    twostate predicate FoundByFilters(kwargs: map<string, Json>, new r: Result<Json, Error>)
      reads base.client
    {
      if ValidateFilterParams(kwargs).Fail? then
        unchanged(base.client) && r == Failure(ValidateFilterParams(kwargs).error)
      else
        base.client.Made([Request(GET, base.path, Some(kwargs), Null, Null, Null)]) &&
        r == SingleItem(base.client.Returned()[0], "devices")
    }

    /** The effect of `set_monitoring(device_ids, enabled)` that returned `r`: nothing is sent for invalid ids. */
    twostate predicate MonitoringSet(deviceIds: Json, enabled: bool, new r: Result<Json, Error>)
      reads base.client
    {
      match NormalizeDeviceIds(deviceIds)
      case Failure(e) => unchanged(base.client) && r == Failure(e)
      case Success(ids) =>
        base.client.Made([Request(PUT, base.path + "/monitoring", None, MonitoringBody(ids, enabled), Null, Null)]) &&
        r == RequireTruthy(base.client.Returned()[0], "Failed to set device monitoring")
    }

    /** `filter(**kwargs)`: the allow-list check, then the plain filter request. */
    method Filter(kwargs: map<string, Json>) returns (r: Result<Json, Error>)
      requires base.client.Valid()
      modifies base.client
      ensures ValidateFilterParams(kwargs).Fail? ==>
        unchanged(base.client) && r == Failure(ValidateFilterParams(kwargs).error)
      ensures ValidateFilterParams(kwargs).Pass? ==>
        base.client.Made([Request(GET, base.path, Some(kwargs), Null, Null, Null)]) &&
        r == FilterResult(base.client.Returned()[0])
    {
      var check := ValidateFilterParams(kwargs);
      if check.Fail? {
        return Failure(check.error);
      }
      r := base.Filter(kwargs);
    }

    /** `_get_by_id(id)`. */
    method GetById(id: Id) returns (r: Result<Json, Error>)
      requires base.client.Valid()
      modifies base.client
      ensures FoundById(id, r)
    {
      var client := base.client;
      var response := client.Get(IdPath(base.path, id));
      assert client.Returned() == [response];
      r := Unwrapped(response, "Device", id);
    }

    /** `_get_by_filters(**kwargs)`. */
    method GetByFilters(kwargs: map<string, Json>) returns (r: Result<Json, Error>)
      requires base.client.Valid()
      modifies base.client
      ensures FoundByFilters(kwargs, r)
    {
      var check := ValidateFilterParams(kwargs);
      if check.Fail? {
        return Failure(check.error);
      }
      var client := base.client;
      var response := client.Get(base.path, Some(kwargs));
      assert client.Returned() == [response];
      r := SingleItem(response, "devices");
    }

    /** `get(id, **kwargs)`: the id lookup, else the filter lookup, else a usage error. */
    method Get(id: Option<Id>, kwargs: map<string, Json>) returns (r: Result<Json, Error>)
      requires base.client.Valid()
      modifies base.client
      ensures id.Some? ==> FoundById(id.value, r)
      ensures id.None? && kwargs != map[] ==> FoundByFilters(kwargs, r)
      ensures id.None? && kwargs == map[] ==>
        unchanged(base.client) && r == Failure(ValueError("Either 'id' or filter parameters must be provided"))
    {
      if id.Some? {
        r := GetById(id.value);
        return;
      }
      if kwargs != map[] {
        r := GetByFilters(kwargs);
        return;
      }
      r := Failure(ValueError("Either 'id' or filter parameters must be provided"));
    }

    /** `create(**kwargs)`: the required-field check, then a POST of `{"data": [kwargs]}`. */
    method Create(kwargs: map<string, Json>) returns (r: Result<Json, Error>)
      requires base.client.Valid()
      modifies base.client
      ensures CreateCheck(kwargs).Fail? ==> unchanged(base.client) && r == Failure(CreateCheck(kwargs).error)
      ensures CreateCheck(kwargs).Pass? ==>
        base.client.Made([Request(POST, base.path, None, CreateBody(kwargs), Null, Null)]) &&
        r == RequireTruthy(base.client.Returned()[0], "Failed to create device")
    {
      var check := ValidateCreateParams(kwargs);
      if check.Fail? {
        return Failure(check.error);
      }
      var client := base.client;
      var response := client.Post(base.path, CreateBody(kwargs));
      assert client.Returned() == [response];
      r := RequireTruthy(response, "Failed to create device");
    }

    /** `set_monitoring(device_ids, enabled)`. */
    method SetMonitoring(deviceIds: Json, enabled: bool) returns (r: Result<Json, Error>)
      requires base.client.Valid()
      modifies base.client
      ensures MonitoringSet(deviceIds, enabled, r)
    {
      var ids := NormalizeDeviceIds(deviceIds);
      if ids.Failure? {
        return Failure(ids.error);
      }
      var client := base.client;
      var response := client.Put(base.path + "/monitoring", MonitoringBody(ids.value, enabled));
      assert client.Returned() == [response];
      r := RequireTruthy(response, "Failed to set device monitoring");
    }

    /** `enable_monitoring(device_ids)`. */
    method EnableMonitoring(deviceIds: Json) returns (r: Result<Json, Error>)
      requires base.client.Valid()
      modifies base.client
      ensures MonitoringSet(deviceIds, true, r)
    {
      r := SetMonitoring(deviceIds, true);
    }

    /** `disable_monitoring(device_ids)`. */
    method DisableMonitoring(deviceIds: Json) returns (r: Result<Json, Error>)
      requires base.client.Valid()
      modifies base.client
      ensures MonitoringSet(deviceIds, false, r)
    {
      r := SetMonitoring(deviceIds, false);
    }
  }
}
