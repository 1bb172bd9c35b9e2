/**
 * Class `CassandraReaper` (src/cassandra_reaper_api/__init__.py:16-319): the
 * session fields that the source updates in place, with the requests
 * session replaced by a scripted transport. Every method is proved to act as
 * the function of the same name in module `Protocol`.
 */
module Reaper {
  import opened Wrappers
  import opened Http
  import Protocol
  import Query

  class CassandraReaper {
    const url: string
    const user: string
    var password: string
    var token: string
    /** The requests session's headers. */
    var headers: map<string, string>
    /** The scripted transport: replies still to come, and the requests sent so far. */
    var pending: seq<Reply>
    var log: seq<Sent>
    /** How many times `login` was entered. */
    ghost var logins: nat

    ghost function Abs(): Protocol.State
      reads this
    {
      Protocol.State(password, token, headers, pending, log, logins)
    }

    ghost predicate Valid()
      reads this
    {
      Protocol.Inv(Abs())
    }

    /** Stores the settings and starts with an empty token and no Authorization header; sends nothing. */
    constructor (url: string, user: string, password: string, transport: seq<Reply>)
      ensures Valid()
      ensures this.url == url && this.user == user
      ensures Abs() == Protocol.Initial(password, transport)
    {
      this.url := url;
      this.user := user;
      this.password := password;
      token := "";
      headers := map[];
      pending := transport;
      log := [];
      logins := 0;
    }

    /**
     * The whole of `__init__`: construct, then log in when `login` is set; a
     * failing login makes the construction fail with its error.
     */
    static method Connect(url: string, user: string, password: string, transport: seq<Reply>,
                          login: bool := true)
      returns (r: Result<CassandraReaper, Error>)
      ensures r.Success? ==> fresh(r.value) && r.value.Valid()
      ensures r.Success? ==> r.value.url == url && r.value.user == user
      ensures !login ==> r.Success? && r.value.Abs() == Protocol.Initial(password, transport)
      ensures login ==>
        var (s, o) := Protocol.Login(Protocol.Initial(password, transport), url, user);
        match o
        case Pass => r.Success? && r.value.Abs() == s
        case Fail(e) => r == Failure(e)
    {
      var c := new CassandraReaper(url, user, password, transport);
      if login {
        var o := c.Login();
        if o.Fail? {
          return Failure(o.error);
        }
      }
      r := Success(c);
    }

    /** The transport call underneath every request. */
    method Send(req: Request) returns (res: Result<Response, Error>)
      requires Valid()
      modifies this
      ensures Valid()
      ensures (Abs(), res) == Protocol.Transmit(old(Abs()), req)
    {
      log := log + [Sent(req, headers)];
      if pending == [] {
        res := Failure(TransportError(req.url));
      } else {
        var reply := pending[0];
        pending := pending[1..];
        match reply
        case Fault => res := Failure(TransportError(req.url));
        case Answer(status, text) => res := Success(Response(req.url, status, text));
      }
    }

    /** `login`: POST the credentials to /login, check, GET /jwt, check, and only then store the token and set the header. */
    method Login() returns (o: Outcome<Error>)
      requires Valid()
      modifies this
      ensures Valid()
      ensures (Abs(), o) == Protocol.Login(old(Abs()), url, user)
    {
      logins := logins + 1;
      var data := Protocol.LoginData(user, password);
      var loginReq := Send(Request(POST, UrlJoin(url, "login"), map[], Form(data)));
      if loginReq.Failure? {
        return Fail(loginReq.error);
      }
      o := CheckReq(loginReq.value);
      if o.Fail? {
        return;
      }
      var jwtReq := Send(Request(GET, UrlJoin(url, "jwt"), map[], NoBody));
      if jwtReq.Failure? {
        return Fail(jwtReq.error);
      }
      o := CheckReq(jwtReq.value);
      if o.Fail? {
        return;
      }
      token := jwtReq.value.text;
      headers := headers[Protocol.Authorization := Protocol.Bearer(token)];
    }

    /** The body shared by the five verb helpers before decoration (lines 56-95). */
    method Attempt(req: Request) returns (res: Result<Response, Error>)
      requires Valid()
      modifies this
      ensures Valid()
      ensures (Abs(), res) == Protocol.Attempt(old(Abs()), req)
    {
      res := Send(req);
      if res.Success? {
        var check := CheckReq(res.value);
        if check.Fail? {
          res := Failure(check.error);
        }
      }
    }

    /** The `__auth_req` wrapper (lines 47-54) around one attempt. */
    method AuthReq(req: Request) returns (res: Result<Response, Error>)
      requires Valid()
      modifies this
      ensures Valid()
      ensures (Abs(), res) == Protocol.AuthReq(old(Abs()), url, user, req)
    {
      res := Attempt(req);
      if res.Failure? && res.error.AuthError? {
        var relogin := Login();
        if relogin.Fail? {
          return Failure(relogin.error);
        }
        res := Attempt(req);
      }
    }

    /** `__get`, decorated (lines 56-62). */
    method Get(query: string, params: Params := map[]) returns (res: Result<Response, Error>)
      requires Valid()
      modifies this
      ensures Valid()
      ensures (Abs(), res) == Protocol.AuthReq(old(Abs()), url, user,
                                               Request(GET, UrlJoin(url, query), params, NoBody))
    {
      res := AuthReq(Request(GET, UrlJoin(url, query), params, NoBody));
    }

    /** `__delete`, decorated (lines 64-70). */
    method Delete(query: string, params: Params := map[]) returns (res: Result<Response, Error>)
      requires Valid()
      modifies this
      ensures Valid()
      ensures (Abs(), res) == Protocol.AuthReq(old(Abs()), url, user,
                                               Request(DELETE, UrlJoin(url, query), params, NoBody))
    {
      res := AuthReq(Request(DELETE, UrlJoin(url, query), params, NoBody));
    }

    /** `__post`, decorated (lines 72-79). */
    method Post(query: string, params: Params := map[], data: Params := map[])
      returns (res: Result<Response, Error>)
      requires Valid()
      modifies this
      ensures Valid()
      ensures (Abs(), res) == Protocol.AuthReq(old(Abs()), url, user,
                                               Request(POST, UrlJoin(url, query), params, Form(data)))
    {
      res := AuthReq(Request(POST, UrlJoin(url, query), params, Form(data)));
    }

    /** `__put`, decorated (lines 81-87). */
    method Put(query: string, params: Params := map[], data: Params := map[])
      returns (res: Result<Response, Error>)
      requires Valid()
      modifies this
      ensures Valid()
      ensures (Abs(), res) == Protocol.AuthReq(old(Abs()), url, user,
                                               Request(PUT, UrlJoin(url, query), params, Form(data)))
    {
      res := AuthReq(Request(PUT, UrlJoin(url, query), params, Form(data)));
    }

    /** `__patch`, decorated (lines 89-95): the body goes as JSON. */
    method Patch(query: string, params: Params := map[], json: Params := map[])
      returns (res: Result<Response, Error>)
      requires Valid()
      modifies this
      ensures Valid()
      ensures (Abs(), res) == Protocol.AuthReq(old(Abs()), url, user,
                                               Request(PATCH, UrlJoin(url, query), params, Json(json)))
    {
      res := AuthReq(Request(PATCH, UrlJoin(url, query), params, Json(json)));
    }

    /** `update_password`: only the stored password changes; nothing is sent. */
    method UpdatePassword(newPassword: string)
      requires Valid()
      modifies this`password
      ensures Valid()
      ensures Abs() == old(Abs()).(password := newPassword)
    {
      password := newPassword;
    }

    /** `get_clusters` (lines 100-103), without decoding the JSON body. */
    method GetClusters() returns (res: Result<Response, Error>)
      requires Valid()
      modifies this
      ensures Valid()
      ensures (Abs(), res) == Protocol.AuthReq(old(Abs()), url, user,
                                               Request(GET, UrlJoin(url, "cluster"), map[], NoBody))
    {
      res := Get("cluster");
    }

    /** `get_repairs` (lines 120-129), without decoding the JSON body. */
    method GetRepairs(cluster: string := "", states: seq<string> := [])
      returns (res: Result<Response, Error>)
      requires Valid()
      modifies this
      ensures Valid()
      ensures (Abs(), res) == Protocol.AuthReq(old(Abs()), url, user,
        Request(GET, UrlJoin(url, "repair_run"), Query.RepairsQuery(cluster, states), NoBody))
    {
      var params := Query.RepairsQuery(cluster, states);
      res := Get("repair_run", params);
    }

    /** `get_schedules` (lines 170-178), without decoding the JSON body. */
    method GetSchedules(cluster: string := "", keyspace: string := "")
      returns (res: Result<Response, Error>)
      requires Valid()
      modifies this
      ensures Valid()
      ensures (Abs(), res) == Protocol.AuthReq(old(Abs()), url, user,
        Request(GET, UrlJoin(url, "repair_schedule"), Query.SchedulesQuery(cluster, keyspace), NoBody))
    {
      var params := Query.SchedulesQuery(cluster, keyspace);
      res := Get("repair_schedule", params);
    }

    /**
     * `add_schedule` (lines 190-235), with the source's defaults except the
     * trigger time, which the caller passes already formatted.
     */
    method AddSchedule(cluster: string, keyspace: string, owner: string, scheduleDaysBetween: int,
                       scheduleTriggerTime: string, segmentCountPerNode: int := 0,
                       intensity: real := 0.0, repairParallelism: string := "DATACENTER_AWARE",
                       repairThreadCount: int := 1, nodes: seq<string> := [],
                       datacenters: seq<string> := [], tables: seq<string> := [],
                       blacklistedTables: seq<string> := [], incrementalRepair: bool := false,
                       adaptive: bool := true, percentUnrepairedThreshold: int := -1)
      returns (res: Result<Response, Error>)
      requires Valid()
      modifies this
      ensures Valid()
      ensures (Abs(), res) == Protocol.AuthReq(old(Abs()), url, user,
        Request(POST, UrlJoin(url, "repair_schedule"),
                Query.AddScheduleQuery(cluster, keyspace, owner, scheduleDaysBetween,
                                       segmentCountPerNode, intensity, repairParallelism,
                                       repairThreadCount, nodes, scheduleTriggerTime, datacenters,
                                       tables, blacklistedTables, incrementalRepair, adaptive,
                                       percentUnrepairedThreshold),
                Form(map[])))
    {
      var params := Query.AddScheduleQuery(cluster, keyspace, owner, scheduleDaysBetween,
                                           segmentCountPerNode, intensity, repairParallelism,
                                           repairThreadCount, nodes, scheduleTriggerTime,
                                           datacenters, tables, blacklistedTables,
                                           incrementalRepair, adaptive, percentUnrepairedThreshold);
      res := Post("repair_schedule", params);
    }

    /** `create_cluster_snapshot` (lines 291-304). */
    method CreateClusterSnapshot(cluster: string, snapshotName: string, owner: string,
                                 cause: string := "", keyspace: string := "",
                                 tables: seq<string> := [])
      returns (res: Result<Response, Error>)
      requires Valid()
      modifies this
      ensures Valid()
      ensures (Abs(), res) == Protocol.AuthReq(old(Abs()), url, user,
        Request(POST, UrlJoin(url, "/snapshot/cluster/" + cluster),
                Query.SnapshotQuery(snapshotName, owner, cause, keyspace, tables), Form(map[])))
    {
      var params := Query.SnapshotQuery(snapshotName, owner, cause, keyspace, tables);
      res := Post("/snapshot/cluster/" + cluster, params);
    }

    /** `create_host_snapshot` (lines 306-319). */
    method CreateHostSnapshot(cluster: string, host: string, snapshotName: string, owner: string,
                              cause: string := "", keyspace: string := "",
                              tables: seq<string> := [])
      returns (res: Result<Response, Error>)
      requires Valid()
      modifies this
      ensures Valid()
      ensures (Abs(), res) == Protocol.AuthReq(old(Abs()), url, user,
        Request(POST, UrlJoin(url, "/snapshot/" + cluster + "/" + host),
                Query.SnapshotQuery(snapshotName, owner, cause, keyspace, tables), Form(map[])))
    {
      var params := Query.SnapshotQuery(snapshotName, owner, cause, keyspace, tables);
      res := Post("/snapshot/" + cluster + "/" + host, params);
    }
  }

  /**
   * A client of the contracts above: the token expires between two calls,
   * the second `login` fetches a new one, and the cluster list is returned
   * from the single retry, sent with the new token.
   */
  method ReauthenticationScenario()
  {
    var base := "http://reaper/";
    var transport := [Answer(200, ""), Answer(200, "tok-1"),
                      Answer(403, "expired"),
                      Answer(200, ""), Answer(200, "tok-2"),
                      Answer(200, "[\"c1\", \"c2\"]")];
    var connected := CassandraReaper.Connect(base, "admin", "secret", transport);
    assert connected.Success?;
    var reaper := connected.value;
    assert reaper.token == "tok-1" && reaper.logins == 1;
    var clusters := reaper.GetClusters();
    assert clusters == Success(Response(base + "cluster", 200, "[\"c1\", \"c2\"]"));
    assert reaper.logins == 2 && reaper.token == "tok-2";
    assert |reaper.log| == 6;
    assert reaper.log[5].request == Request(GET, base + "cluster", map[], NoBody);
    assert reaper.log[5].headers[Protocol.Authorization] == "Bearer tok-2";
  }
}
