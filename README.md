# Claude usage server: the snapshot state machine

This project models the core of the Windows usage server (`windows/claude_usage_server.py`).
A background thread polls the claude.ai usage endpoint forever. After each poll it replaces a
process-wide snapshot, the module global `usage_data`. Two Flask routes read that snapshot:
`/usage` (and its alias `/`) serves it verbatim, and `/health` reports whether it has a
`five_hour` entry.

The model has four modules:

- `Options`: an `Option` datatype.
- `JsonValue`: the values Python's `json` decoder produces (`Json`). It also holds the Python type
  name of each value and the text of the `AttributeError` raised by calling `.get` on a non-dict.
- `Decimal`: Python's `str(int)`, used for the `"HTTP <code>"` reason. It also holds `int(...)` on strings
  of the form `-?[0-9]+` as a partial inverse, with the round trip between them proved.
- `UsageServer`:
  - the upstream result of one cycle, as an input `Outcome`. That is a response (status code and
    the decoded or undecodable body) or a transport exception.
  - `Classify`, the snapshot one cycle leaves.
  - the class `Server`. Its `snapshot` field is `usage_data`. The method `Cycle` runs one loop
    iteration and `Run` runs the first N iterations. The functions `Usage` and `Health` are the
    two routes.

What is proved:

- Every cycle replaces the whole snapshot. After any run of cycles, the snapshot is the last
  cycle's classification alone.
- The snapshot at rest is always a dict.
- Status 200 stores the decoded body only when the body is a dict and its `five_hour`,
  `seven_day` and `seven_day_sonnet` entries are dicts wherever present. Otherwise the
  utilization reads after the assignment raise, and the `except` clause overwrites the body with
  the `AttributeError` text.
- 401 and 403 leave their fixed reasons.
- Any other status leaves `"HTTP <code>"`, and the code can be read back from that reason.
- Exceptions leave their own text.
- `has_data` is true after a cycle exactly when that cycle stored a body with a `five_hour` key.

Three facts about the code shape the model:

- `has_data` tests for the key `five_hour` (line 103). A 200 body without that key reports false.
- A 200 body becomes the snapshot only when it also passes the shape conditions above.
- The failure reasons are the exact strings of lines 75 and 78:
  `"Session expired - update SESSION_KEY"` and `"Access denied - check credentials"`.

## Model

| member | source | states |
|---|---|---|
| `UsageServer.Server.constructor` | windows/claude_usage_server.py:14 | the cell starts as `{"status": "starting"}`, a dict without `five_hour` |
| `UsageServer.StartingHasNoData` | windows/claude_usage_server.py:14 | the starting snapshot is exactly `{"status": "starting"}` and `has_data` is false on it |
| `UsageServer.Server.Cycle` | windows/claude_usage_server.py:52-86 | one loop iteration assigns the cell step by step (the body first on 200, then maybe the error) and ends with the outcome's classification, always a dict |
| `UsageServer.Classify` | windows/claude_usage_server.py:66-86 | the snapshot a cycle leaves is always a dict: the decoded body exactly when the outcome is accepted, otherwise a one-entry `{"error": <string>}` |
| `UsageServer.HeadlineFault` | windows/claude_usage_server.py:67-70 | the three `.get(key, {}).get('utilization', 'N/A')` reads raise exactly when the body is not well shaped (not a dict, or a headline entry present but not a dict) |
| `JsonValue.NoGetMessage` | windows/claude_usage_server.py:68-70 | the AttributeError text has the offending value's Python type name between its quote and its fixed suffix |
| `JsonValue.PyTypeName` | windows/claude_usage_server.py:68-70 | a value is named `dict` exactly when it is a JSON object, and `NoneType` exactly when it is `null` |
| `UsageServer.SuccessStoresBody` | windows/claude_usage_server.py:66-67 | status 200 with a well-shaped decoded body leaves that body verbatim as the snapshot |
| `UsageServer.MisshapenSuccessIsError` | windows/claude_usage_server.py:67-70 | status 200 with a body that is not well shaped overrides the stored body with `{"error": <AttributeError text for some non-dict value>}` |
| `UsageServer.AuthFailuresReported` | windows/claude_usage_server.py:73-78 | 401 leaves `{"error": "Session expired - update SESSION_KEY"}` and 403 leaves `{"error": "Access denied - check credentials"}`, whatever the body |
| `UsageServer.AuthErrorsAreNotHttpErrors` | windows/claude_usage_server.py:73-81 | the 401 and 403 snapshots are never read as an `"HTTP <code>"` reason |
| `UsageServer.HttpErrorNamesStatus` | windows/claude_usage_server.py:79-81 | any status other than 200, 401 and 403 (other 2xx codes included) leaves `"HTTP " + str(status)`, from which the status is recovered exactly |
| `UsageServer.HttpErrorsDistinguishStatus` | windows/claude_usage_server.py:79-81 | two unexpected statuses leave the same snapshot if and only if they are the same status |
| `Decimal.NatToDecimal` | windows/claude_usage_server.py:81 | the decimal text of a natural number is nonempty, all digits and has no leading zero |
| `Decimal.IntToDecimal` | windows/claude_usage_server.py:81 | `str(n)` starts with `-` exactly when `n` is negative |
| `Decimal.NatToDecimalValue` | windows/claude_usage_server.py:81 | the digits of `str(n)` denote `n` |
| `Decimal.IntToDecimalRoundTrip` | windows/claude_usage_server.py:81 | `int(str(n)) == n` for every integer |
| `Decimal.IntToDecimalInjective` | windows/claude_usage_server.py:81 | `str(a) == str(b)` if and only if `a == b` |
| `UsageServer.ExceptionIsReported` | windows/claude_usage_server.py:83-86 | a transport exception or an undecodable 200 body leaves `{"error": str(e)}` with the exception's own text |
| `UsageServer.Server.Run` | windows/claude_usage_server.py:51-88 | every outcome gets its cycle, failures included, so the loop goes on; the cell after each cycle is that cycle's classification, and after all of them it is the replay of the outcomes in order |
| `UsageServer.Replay` | windows/claude_usage_server.py:51-88 | replaying cycles from a dict leaves a dict |
| `UsageServer.ReplayExtend` | windows/claude_usage_server.py:67-86 | after one more cycle the snapshot is that cycle's classification, whatever the earlier outcomes and starting value were |
| `UsageServer.OnlyLastOutcomeMatters` | windows/claude_usage_server.py:67-86 | two histories that end with the same outcome leave the same snapshot: nothing from earlier snapshots is merged in |
| `UsageServer.Server.Usage` | windows/claude_usage_server.py:93-97 | `/usage` serves the cell verbatim, and it is always a dict |
| `UsageServer.Server.Health` | windows/claude_usage_server.py:101-108 | `/health` serves exactly `status: "ok"`, `message: "Server is running"` and `has_data` computed from the current cell, and only reads it |
| `UsageServer.HasDataAfterCycle` | windows/claude_usage_server.py:103 | after a cycle `has_data` holds if and only if that cycle stored a decoded body with a `five_hour` key; every error snapshot reports false |

## Left out

- The HTTPS request through `curl_cffi` with Chrome impersonation, the URL, the cookie and the headers (lines 56-64). Each cycle's result is the input `Outcome` instead.
- The text of exceptions from the network call and from `response.json()`. It is an opaque string in the `Outcome`. Only the `AttributeError` of the shape check is spelled out, because the model computes it.
- Flask routing, `jsonify` serialisation (including key order) and the `Access-Control-Allow-Origin` header (lines 91-108). Only the JSON value each route returns is modelled.
- The daemon thread and unsynchronised access to the global (lines 139-140). The model is sequential. It therefore does not capture that a request served between line 67 and the `except` clause may briefly see a raw 200 body that is about to be replaced. On such a non-dict value, `"five_hour" in usage_data` tests element membership for a list and substring membership for a string, and raises `TypeError` for a number, a boolean or `null`.
- `time.sleep`, `time.strftime` timestamps, every `print`, the `'N/A'` placeholders, `print_banner` and the placeholder-credential warning (lines 111-136). The model assumes every `print` succeeds.
- A `print` that raises (for example `UnicodeEncodeError` on a console whose code page cannot encode a character of a utilization value). One at lines 54 or 71-72, inside the `try`, sends the cycle to the `except` and replaces even a well-shaped body with `{"error": str(e)}`. One at line 85, inside the `except`, escapes the `while True`: the thread ends and the previous snapshot stays for good. `Classify` and `Run` assume no print raises, so `Run`'s promise that every outcome gets its cycle holds only under that assumption.
- `BaseException`s that `except Exception` does not catch (such as `SystemExit` raised inside a call), which would end the thread. `KeyboardInterrupt` is delivered only to the main thread, so it never reaches this one.
- JSON `NaN`, `Infinity` and `-Infinity`, which Python's decoder accepts as floats. `JFloat` holds a real number.
- UsageServer.Server.Run: models a finite prefix of the endless `while True` loop, since the loop never terminates, and assumes no `print` in it raises (see above).
