# Cassandra Reaper API client: the authenticated request layer

This project models the core of `cassandra_reaper_api`, a Python client for the
HTTP management API of Cassandra Reaper, and proves properties of that model.
The client is one class, `CassandraReaper`, that:

- logs in with a two-step `/login` then `/jwt` exchange;
- keeps the returned bearer token in its session's `Authorization` header;
- classifies every response as ok, `AuthError` (statuses 403, 498 and 499) or `HTTPError`;
- wraps each of its five verb helpers so that an `AuthError` is answered by one `login` and one identical retry.

On top of that sit the facade operations. Those modelled here also build query parameters in which optional keys appear only for truthy arguments.

The network is replaced by a scripted transport. A client holds the replies still to come (`pending`, each a status and body text or a connection `Fault`) and the log of requests already sent (`log`). Each log entry records the session headers in force when the request was sent. `Protocol.Transmit` and the method `Reaper.CassandraReaper.Send` stand for the session's transport calls (`src/cassandra_reaper_api/__init__.py` lines 32, 35, 60, 68, 76, 85 and 93): each takes the next reply and logs one request.

Modules:

- `Wrappers`: `Result`, `Outcome`. They stand in for returning or raising.
- `Http`: the request, response and error values, and the classifier `CheckReq` (`__check_req`).
- `Commas`: `",".join` as `Join`, its inverse `Split`, and the two round-trip lemmas.
- `Query`: the parameter builders of `get_repairs`, `get_schedules`, `add_schedule` and the two snapshot operations, as functions into `map<string, Value>`.
- `Protocol`: the session as a pure state machine. It has `State`, the invariant `Inv`, one `Attempt`, `Login` and the retry wrapper `AuthReq`. Their contracts state the protocol in terms of the scripted replies.
- `Reaper`: class `CassandraReaper`, with the fields the source updates in place. Each method's contract gives the new `Protocol.State` exactly: for most methods it is the `Protocol` function of the same name, and for `UpdatePassword` it is the old state with only the password replaced. The method `ReauthenticationScenario` is a client: it shows that a token expiring between two calls is renewed by the second `login` and that the retried cluster request carries the new token.

Two behaviours of the code worth noting:

- A response is ok when its status is not in 400..599. This is the `ok` property of `requests`, not "2xx". A 1xx or 3xx status is therefore not an error.
- The token is whatever text `/jwt` returns. An empty body yields an empty token and the header `"Bearer "`. The code does not require the token to be non-empty.

## Model

| member | source | states |
|---|---|---|
| `Http.CheckReq` | src/cassandra_reaper_api/__init__.py:40-45 | The outcomes partition the statuses. 400..599 fails and everything else passes. The failure is an AuthError exactly for 403, 498 and 499, and an HTTPError for every other 4xx/5xx status, 401 included. The error carries the response's URL, status and text. |
| `Commas.SplitJoin` | src/cassandra_reaper_api/__init__.py:126 | Splitting a comma-join of a non-empty list of comma-free strings at the commas gives back the list. |
| `Commas.JoinSplit` | src/cassandra_reaper_api/__init__.py:126 | Joining the comma-split pieces of any string gives back the string. So the comma-join loses nothing when no part contains a comma. |
| `Query.RepairsQuery` | src/cassandra_reaper_api/__init__.py:122-127 | Only `cluster_name` and `state` can appear. `cluster_name` is present iff the cluster is non-empty, and then it holds that cluster. `state` is present iff the list of states is non-empty, and then it holds their comma-join. |
| `Query.RepairsStatesRecoverable` | src/cassandra_reaper_api/__init__.py:125-127 | For a non-empty list of comma-free states, splitting the `state` value gives back exactly the states asked for. |
| `Query.SchedulesQuery` | src/cassandra_reaper_api/__init__.py:172-176 | Only `clusterName` and `keyspace` can appear. Each is present iff its argument is non-empty, and then it holds that argument. |
| `Query.ScheduleRequired` | src/cassandra_reaper_api/__init__.py:211-222 | The ten mandatory `add_schedule` keys, each holding its argument, and no other key. |
| `Query.ScheduleOptionals` | src/cassandra_reaper_api/__init__.py:223-234 | Six keys can appear: `tables`, `segmentCountPerNode`, `intensity`, `nodes`, `datacenters` and `blacklistedTables`. Each is present iff its argument is truthy, and then it holds that argument; lists are kept as lists. |
| `Query.AddScheduleQuery` | src/cassandra_reaper_api/__init__.py:211-234 | The ten mandatory keys are always present with their arguments. Each of the six optional keys is present iff its argument is truthy: a non-empty list or a non-zero number. No other key appears. |
| `Query.SnapshotQuery` | src/cassandra_reaper_api/__init__.py:293-302 | `snapshot_name` and `owner` are always present. `keyspace` and `cause` are present iff non-empty. `tables` is present iff the list is non-empty, and then it holds the comma-join. No other key appears. |
| `Query.SnapshotOptionals` | src/cassandra_reaper_api/__init__.py:297-302 | Only `keyspace`, `tables` and `cause` can appear. `keyspace` and `cause` are present iff non-empty and then hold their argument. `tables` is present iff the list is non-empty and then holds its comma-join. |
| `Query.SnapshotTablesRecoverable` | src/cassandra_reaper_api/__init__.py:299-300 | For a non-empty list of comma-free tables, the `tables` value splits back into exactly that list. |
| `Protocol.Initial` | src/cassandra_reaper_api/__init__.py:17-23 | A fresh client has an empty token, no Authorization header, nothing sent and no login. It satisfies the session invariant. |
| `Protocol.Attempt` | src/cassandra_reaper_api/__init__.py:56-95 | A verb helper sends exactly one request, with the current headers, and consumes one reply. Only the transport changes. Its result is the checked reading of that reply: success iff the reply is ok, AuthError iff the status is a token status; a missing reply or a fault gives a transport error. |
| `Protocol.Login` | src/cassandra_reaper_api/__init__.py:27-38 | It counts one login and keeps the password and the session invariant. It succeeds iff both replies are ok, and then the token is the `/jwt` body and the header is `Bearer` plus the token. On any failure the token and the header are unchanged. One scripted reply is consumed per request sent. A failing `/login` fails with its own error and `/jwt` is never requested. A failing `/jwt` fails with its error. |
| `Protocol.AuthReq` | src/cassandra_reaper_api/__init__.py:47-54 | The request is always sent first. Login happens exactly once iff the first reply is a token status, and never otherwise. At most four requests are sent: at most two attempts plus the login pair. Without an AuthError the first attempt's result is final. After a successful re-login the identical request is sent once more with the new token, and its reading is the result, even a second AuthError. A failing re-login gives its own `/login` or `/jwt` error as the result, and the request is not re-sent. After a successful retry the header carries the new token. One scripted reply is consumed per request sent. The session invariant is kept. |
| `Reaper.CassandraReaper.constructor` | src/cassandra_reaper_api/__init__.py:17-23 | Stores URL, user and password, starts from the initial state and sends nothing. |
| `Reaper.CassandraReaper.Connect` | src/cassandra_reaper_api/__init__.py:17-25 | Like the constructor when `login` is false. When it is true, the client is returned after a successful `login`, and a failing `login` fails the construction with its error. |
| `Reaper.CassandraReaper.Send` | src/cassandra_reaper_api/__init__.py:60 | The stand-in for a transport call (line 60 and the calls at lines 32, 35, 68, 76, 85 and 93). It logs the request with the current headers and consumes the next scripted reply. A missing reply or a fault is a transport error. Proved equal to `Protocol.Transmit`. |
| `Reaper.CassandraReaper.Login` | src/cassandra_reaper_api/__init__.py:27-38 | Sends and checks in the source's order and updates token and header last. It is proved equal to `Protocol.Login`. |
| `Reaper.CassandraReaper.Attempt` | src/cassandra_reaper_api/__init__.py:56-95 | Send, then `__check_req`. Proved equal to `Protocol.Attempt`. |
| `Reaper.CassandraReaper.AuthReq` | src/cassandra_reaper_api/__init__.py:47-54 | The try/except wrapper. Proved equal to `Protocol.AuthReq`. |
| `Reaper.CassandraReaper.Get` | src/cassandra_reaper_api/__init__.py:56-62 | A GET with no body, through `AuthReq`. |
| `Reaper.CassandraReaper.Delete` | src/cassandra_reaper_api/__init__.py:64-70 | A DELETE with no body, through `AuthReq`. |
| `Reaper.CassandraReaper.Post` | src/cassandra_reaper_api/__init__.py:72-79 | A POST with a form body, through `AuthReq`. |
| `Reaper.CassandraReaper.Put` | src/cassandra_reaper_api/__init__.py:81-87 | A PUT with a form body, through `AuthReq`. |
| `Reaper.CassandraReaper.Patch` | src/cassandra_reaper_api/__init__.py:89-95 | A PATCH with a JSON body, through `AuthReq`. |
| `Reaper.CassandraReaper.UpdatePassword` | src/cassandra_reaper_api/__init__.py:97-98 | Only the stored password changes. Token, headers, script, log and login count stay as they were, so nothing is sent. |
| `Reaper.CassandraReaper.GetClusters` | src/cassandra_reaper_api/__init__.py:100-103 | A GET of `cluster` through `AuthReq`. |
| `Reaper.CassandraReaper.GetRepairs` | src/cassandra_reaper_api/__init__.py:120-129 | A GET of `repair_run` with `Query.RepairsQuery` through `AuthReq`. |
| `Reaper.CassandraReaper.GetSchedules` | src/cassandra_reaper_api/__init__.py:170-178 | A GET of `repair_schedule` with `Query.SchedulesQuery` through `AuthReq`. |
| `Reaper.CassandraReaper.AddSchedule` | src/cassandra_reaper_api/__init__.py:190-235 | A POST of `repair_schedule` with `Query.AddScheduleQuery`, through `AuthReq`, using the source's defaults. |
| `Reaper.CassandraReaper.CreateClusterSnapshot` | src/cassandra_reaper_api/__init__.py:291-304 | A POST of `/snapshot/cluster/<cluster>` with `Query.SnapshotQuery` through `AuthReq`. |
| `Reaper.CassandraReaper.CreateHostSnapshot` | src/cassandra_reaper_api/__init__.py:306-319 | A POST of `/snapshot/<cluster>/<host>` with `Query.SnapshotQuery` through `AuthReq`. |

## Left out

- The `requests` session and its network I/O. They are replaced by the scripted `pending` replies and the `log`. Every connection, DNS or timeout failure is one `Fault` reply, and an exhausted script counts as one.
- `urljoin`: `UrlJoin` is plain concatenation of base and path. RFC 3986 reference resolution, such as a leading `/` replacing the base path, is not modelled.
- Decoding JSON bodies with `req.json()`. The facade methods return the checked response instead.
- Timeouts and `verify_ssl`. They are passed through unchanged and have no logic.
- The rendered error message `URL: …, Status: …, Text: …`. The errors carry the status and text as fields instead, and a URL as described in the next line.
- `Protocol.Transmit`, `Reaper.CassandraReaper.Send`: the URL of a response, and so of an `AuthError` or `HTTPError`, is the request URL `UrlJoin(base, path)`. It has no encoded query string and is not changed by redirects. In the source, `req.url` is the final prepared URL, query string included. So for `get_repairs("c1", ["RUNNING"])` answered with 500, the source's error names `…/repair_run?cluster_name=c1&state=RUNNING`, and the model's names `…/repair_run`.
- Reaper.CassandraReaper.AddSchedule: does not model the default `schedule_trigger_time`. The source computes it from the clock, once, when the function is defined, and then calls `isoformat()`. The caller passes the formatted timestamp instead.
- `intensity` is a `real`: float rounding and the float's text form are not modelled. Only its truthiness test, `!= 0.0`, matters to the builder.
- Query-key order is not modelled by any builder: `Query.RepairsQuery`, `Query.SchedulesQuery`, `Query.ScheduleRequired`, `Query.ScheduleOptionals`, `Query.AddScheduleQuery`, `Query.SnapshotOptionals` and `Query.SnapshotQuery` all return a `map`. Python dicts keep insertion order, and that order fixes the order of keys in the URL; a `map` has no order.
- The facade operations outside the named builders. These are `get_cluster_info`, `get_cluster_tables`, `delete_cluster`, `get_repair`, `pause_repair`, `resume_repair`, `abort_repair`, `change_repair_intensity`, `delete_repair`, `get_repair_segments`, `abort_repair_segment`, `get_cluster_schedules`, `disable_schedule`, `enable_schedule`, `update_schedule`, `delete_schedule`, `get_schedule`, `start_schedule`, the two snapshot getters and the two snapshot deletions. Each builds its path, and in some cases its parameters (`get_cluster_info`, `delete_cluster`), from its arguments and calls one verb helper. The exceptions are `delete_repair` and `delete_schedule`: they first GET the record and take `owner` from its decoded JSON, then DELETE. So one call of either makes two wrapped requests and can log in twice.
- Concurrency: the class is not safe for concurrent use, and the model is sequential.
