# TikTok account linking and upload gate, in Dafny

This project models the TikTok part of the service (`apps/tiktok/main.py`). It has three parts:

- **Token store.** Two JSON records live in a data directory: the OAuth token reply and the user profile. A save replaces its record whole. A load returns the record, or None when the file does not exist yet.
- **OAuth callback.** It exchanges the authorization code for tokens, stores them and fetches the profile with the access token. It stores the profile too, then compares the username with the one authorized account, `lawrence72`.
- **Upload handler.** It checks three guards in order: a confirmed user, the authorized username and an access token. Only then does it send the one upload request, and it turns the provider's status into a JSON reply.

Files:

- `pyjson.dfy` (module `PyJson`): JSON values as Python holds them after decoding. It also has the Python operations the handlers apply to them: truthiness, `dict.get` with a default, `in` and `[...]`. Each of these yields a value or raises the exception Python raises (`AttributeError`, `TypeError`, `KeyError`).
- `http.dfy` (module `Http`): a provider reply as the `requests` client shows it. `raise_for_status` refuses statuses 400 to 599. `json()` fails on a body that is not JSON. A transport fault means no reply arrived at all.
- `tiktok.dfy` (module `TikTok`): the class `Store`, the username and access-token lookups, and the two handlers as methods. The handlers take the provider's replies as parameters. They return the handler's outcome (a JSON reply, or the exception that propagates) and the requests they sent.
- `sessions.dfy` (module `Sessions`): whole sessions on a fresh data directory. These are: store reads and writes; an upload before any callback; a callback followed by an upload.

Points where the model departs from a first reading of the code:

- A stored JSON `null` loads back as None. Python cannot tell it from a missing file, and `Store.LoadTokens`/`LoadUser` give `JNull` in both cases.
- `save_user` does not create the data directory; only `save_tokens` does. The store therefore tracks whether the directory exists. On a fresh install, a user write before any token write fails with `FileNotFoundError`. In the callback, the tokens are always saved first, so this cannot happen there.
- The profile fetch in the callback never checks the HTTP status. An error reply that carries a JSON body is therefore stored as the user record.
- One level of a path can be present but not a dict (for example `"data": null`). The username lookup then raises `AttributeError` instead of falling back to its default.
- The upload path catches only the status error raised by `raise_for_status`. The request itself (`apps/tiktok/main.py:89`) sits outside the `try`, so a transport fault propagates. The same is true of a success reply whose body is not JSON (line 95). The model follows the code here.

## Model

| member | source | states |
|---|---|---|
| `TikTok.Store.constructor` | apps/tiktok/main.py:5-8 | a first run: neither record file nor the data directory exists |
| `TikTok.Store.SaveTokens` | apps/tiktok/main.py:17-20 | the token record becomes exactly the given value whatever it held before; the directory then exists; the user record is unchanged |
| `TikTok.Store.LoadTokens` | apps/tiktok/main.py:22-26 | returns the stored token record, or None when none was written; never fails |
| `TikTok.Store.SaveUser` | apps/tiktok/main.py:28-30 | replaces the user record exactly when the data directory exists; otherwise fails with FileNotFoundError and changes nothing; the token record is unchanged |
| `TikTok.Store.LoadUser` | apps/tiktok/main.py:32-36 | returns the stored user record, or None when none was written |
| `PyJson.HasSubstring` | apps/tiktok/main.py:40 | Python's `in` on strings: true iff the key occurs at some position of the string |
| `PyJson.Contains` | apps/tiktok/main.py:40 | `"access_token" in data`: key membership for a dict, element membership for a list, substring for a string, TypeError for null, booleans and numbers |
| `PyJson.Get` | apps/tiktok/main.py:66 | `.get(key, default)` (also lines 40 and 77): the key's value when a dict holds it, the default when a dict lacks it, AttributeError on anything that is not a dict |
| `PyJson.Index` | apps/tiktok/main.py:41 | `v[key]` (also line 59): succeeds exactly on a dict holding the key and yields its value; KeyError on a dict without it, TypeError on anything else |
| `TikTok.TokenField` | apps/tiktok/main.py:59 | `data["data"]["access_token"]` (also line 41) succeeds iff both levels are dicts holding the keys, and yields the value at that path; otherwise it raises TypeError or KeyError |
| `TikTok.AccessTokenOf` | apps/tiktok/main.py:38-42 | None for a falsy record, a record without `data`, or a `data` dict without `access_token`; the value at `data.access_token` whenever that path exists; a non-None result always comes from that path; a truthy record that is not a dict raises AttributeError; otherwise it raises exactly when `data` is present, `"access_token" in data` is not False, and the double subscript fails (so `data: null` raises TypeError while a string `data` without the key gives None) |
| `TikTok.GetAccessToken` | apps/tiktok/main.py:38-42 | the lookup above, applied to the loaded token record; None when no token record exists |
| `TikTok.UsernameOf` | apps/tiktok/main.py:66 | the value at `data.user.username` whenever that path exists through dicts; a non-None result always comes from that path, so a profile lacking any level never yields `lawrence72`; a missing `data`, `user` or `username` gives None; it raises (AttributeError) exactly when the profile, or a level present on the path, is not a dict |
| `Http.Received` | apps/tiktok/main.py:54 | a request (also lines 60 and 89) yields the provider's reply iff one arrived; otherwise it raises the transport fault |
| `Http.JsonBody` | apps/tiktok/main.py:56 | `r.json()` (also lines 63 and 95) yields the body iff it is JSON; otherwise it raises a JSON decoding error |
| `Http.RaiseForStatus` | apps/tiktok/main.py:55 | raises HTTPError exactly for statuses 400 to 599 |
| `TikTok.ExchangedTokens` | apps/tiktok/main.py:54-56 | yields the token payload iff a reply arrived with a non-error status and a JSON body; an error status raises HTTPError |
| `TikTok.FetchedProfile` | apps/tiktok/main.py:60-63 | yields the profile iff a reply arrived with a JSON body, whatever its status |
| `TikTok.CallbackVerdict` | apps/tiktok/main.py:66-70 | the reply is `status: "ok"` with the profile iff the profile names `lawrence72`; any other username gives `status: "error"` with the profile; it raises iff the username lookup raises |
| `TikTok.TikTokCallback` | apps/tiktok/main.py:44-70 | the token request always carries the settings, code and grant type; a failed exchange raises with both records and the directory unchanged and no profile fetch; otherwise the tokens are stored before anything else can fail; the profile fetch uses the stored token, and that token is what the upload's lookup returns; the profile is stored before the username check; both records stay stored when the account is rejected; a confirmed account leaves records that permit an upload iff the token is truthy |
| `TikTok.UploadResult` | apps/tiktok/main.py:89-95 | an error status is caught and returns the error text and raw response text; a success returns `status: "success"` with the parsed body; it raises only when no reply arrived or a success body is not JSON |
| `TikTok.UploadVideo` | apps/tiktok/main.py:72-95 | an upload is sent iff the stored profile names `lawrence72` and the stored token record holds a truthy access token; otherwise nothing is sent; the guards apply in order (falsy user, a username lookup that raises or mismatches, a token lookup that raises or is falsy), each with its own reply; when sent, the upload carries the stored token and the caption, and the reply is the provider's mapped result |
| `Sessions.LastWriteWins` | apps/tiktok/main.py:17-36 | on a fresh directory both loads give None; after saving tokens, a user and then other tokens, the loads give the last tokens and the user |
| `Sessions.UserBeforeTokens` | apps/tiktok/main.py:28-30 | on a fresh directory a user write fails with FileNotFoundError and leaves no user record |
| `Sessions.UploadBeforeLinking` | apps/tiktok/main.py:74-76 | an upload before any callback is refused as unconfirmed and sends nothing |
| `Sessions.LinkThenUpload` | apps/tiktok/main.py:44-95 | after a failed exchange the upload is refused as unconfirmed; after an exchange and profile fetch that succeed, a confirmed account uploads with exactly the exchanged token iff that token is truthy (otherwise "No access token"); a truthy profile naming another account gets the "Unauthorized account" reply and the upload is then locked with nothing sent |

## Left out

- Network: the three outbound calls (lines 54, 60-63 and 89) are not performed. Each handler takes the reply the provider would give as a parameter, and returns a record of each request it sent (URL, credentials, bearer token, file and caption).
- HTTP client details: the text of an `HTTPError` comes from the client library, so the model takes it as a field of the reply (`errorText`). The model also leaves out how `requests` builds the `Bearer` header string and drops unset form fields; the bearer is recorded as the token's JSON value.
- File system: the records are in-memory fields. The model leaves out paths, JSON serialisation and file-system faults other than the missing directory: permissions, a full disk, and a file truncated by a failed write that would later fail to decode.
- Environment loading (lines 10-13): the client id, secret and redirect URI are a `Settings` parameter.
- FastAPI routing, reading the uploaded file and multipart encoding (lines 73 and 86). The video is given as a filename and its bytes. An exception that escapes a handler is returned as a `Raise` outcome, not turned into an HTTP 500 reply.
- JSON numbers are reals. Python's split between int and float, and its non-standard NaN and Infinity, are not modelled; numbers matter to the core only through truthiness.
- The callback's `state` parameter is accepted and unused, as in the code.
- Concurrency: requests racing on the record files are not modelled.
- `netlify/functions/agent-bridge.js` is not part of this model: it is a fetch proxy whose only computation is an HMAC in Node's crypto library.
- `apps/frontend/pages/index.tsx` and `apps/frontend/pages/creator.tsx` are not part of this model: they are UI.
- `apps/api/main.py` is not part of this model: it is an email client run as a background task (network I/O).
- `api/app.py` is not part of this model: it only reports whether environment variables are set.
- `apps/jarvis/worker.py` is not part of this model: it is an endless Redis heartbeat loop driven by the clock (I/O and timing).
