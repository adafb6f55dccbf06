# Task-list client: task reducers and the refresh-and-retry HTTP client

This project models the two parts of the task-list browser client that hold logic, and proves properties of the model in Dafny.

- **The task slice** (`src/features/tasks/taskSlice.js`). Its state is `{ tasks: [] }` and has four reducers: `setTasks`, `addTask`, `deleteTask` and `updateTask`. Module `TaskSlice` models the state as the class `TaskStore`, whose `tasks` field the reducer methods reassign. The array operations the reducers use are pure functions: `findIndex` is `FindIndex`, `filter` is `WithoutId`, and `Updated` is the whole effect of `updateTask`: `findIndex` followed by the overwrite of the slot it finds, when it finds one. Lemmas about these functions state what each reducer promises.
- **The intercepted axios instance** (`src/utils/axiosInstance.js`). The request hook attaches `Bearer <token>` when the session token is truthy. The response hook answers a first 403 on a request in four steps: it marks the request `_retry`, calls the refresh endpoint through plain `axios`, installs the new access token, and replays the request once. If there is no truthy refresh token, or the refresh call fails, it logs out, sends the browser to `/`, and rejects the original error. A failed replay is rejected with its own error, with no logout. Module `AxiosInstance` states the protocol as two mutually recursive functions over a `World` value, `Call` and `OnError`. The classes `RequestConfig` (the mutable request config) and `AuthClient` (the instance plus the state it reaches) have methods proved equal to those functions. The lemmas go through each branch and state the exact post-state of each: the world, the outcome and the final config, its headers and `_retry` mark included. Two more lemmas hold for every run: at most one refresh per request, and `localStorage['refreshToken']` is never written.

Module `Wrappers` holds `Option` and a map lookup. A `None` there stands for JavaScript's `null`/`undefined`.

Abstract parts of the client model:
- The session slice of the store is a `Session` value. `setCredentials` replaces it and `logout` resets it to no user and no token.
- `localStorage` is a string map.
- `window.location.href` is a string.
- The HTTP server is a script of replies, answered in order. An exhausted script answers with no response, which is a network error.
- Every request put on the wire is logged, tagged with the client that sent it (the instance or plain `axios`). The log is how the lemmas count requests and refresh calls.

JavaScript details that are modelled:
- Truthiness: `null`, `undefined` and `""` are falsy, both for the session token and for the stored refresh token.
- A refresh reply without `accessToken` yields `undefined`. The session token is then absent, `localStorage['token']` becomes the string "undefined", and the replay carries `Bearer undefined`.
- The replay goes through the request hook again. The hook leaves the header at `Bearer <new token>`.
- The replay's promise is returned, not awaited, inside the `try`. A failed replay therefore skips the `catch` and is rejected by the hook itself, because `_retry` is already set.

Behaviours of the code worth noting, all modelled as written:
- Only status 403 triggers a refresh, not 401.
- The refresh token is never written, rotated or cleared by the client. The new access token is stored under `localStorage['token']`. Nothing in `src/pages/login.jsx` stores a refresh token either: it puts only the access token in the session (`src/pages/login.jsx:30`).
- `_retry` is set before the refresh call, not on success only.
- `addTask` appends without any id check, so duplicate ids are possible. It does not overwrite on an id collision.
- `updateTask` overwrites only the first task with a matching id.

## Model

| member | source | states |
|---|---|---|
| TaskSlice.TaskStore.constructor | src/features/tasks/taskSlice.js:3-5 | the initial state holds an empty task list |
| TaskSlice.TaskStore.SetTasks | src/features/tasks/taskSlice.js:11-13 | afterwards the list is exactly the payload, whatever it held before |
| TaskSlice.TaskStore.AddTask | src/features/tasks/taskSlice.js:14-16 | the list grows by one; the payload is the new last element; every earlier element is unchanged |
| TaskSlice.AppendedCountsDuplicate | src/features/tasks/taskSlice.js:14-16 | appending makes no id check: the number of tasks with the payload's id goes up by one even when that id is already present |
| TaskSlice.AppendThenDelete | src/features/tasks/taskSlice.js:14-19 | deleting the id of a just-appended task gives the same list as deleting it before the append, so every duplicate goes with it |
| TaskSlice.TaskStore.DeleteTask | src/features/tasks/taskSlice.js:17-19 | the new list is the filtered old list: it never grows, no task keeps the id, the order is kept, and it holds exactly the old tasks with another id |
| TaskSlice.WithoutId | src/features/tasks/taskSlice.js:18 | the filter never lengthens the list and leaves no task with the given id |
| TaskSlice.WithoutIdKeepsOrder | src/features/tasks/taskSlice.js:18 | the surviving tasks keep their relative order (they are a subsequence of the old list) |
| TaskSlice.WithoutIdKeepsOthers | src/features/tasks/taskSlice.js:18 | every task with a different id survives, as many times as it occurred; no task with the id survives |
| TaskSlice.WithoutIdUnique | src/features/tasks/taskSlice.js:18 | these two properties determine the filter: any order-keeping selection of exactly the tasks with another id equals it |
| TaskSlice.WithoutIdCount | src/features/tasks/taskSlice.js:18 | the filter removes exactly the tasks with the id: the length drops by their number and none is left |
| TaskSlice.WithoutIdAbsent | src/features/tasks/taskSlice.js:18 | when no task has the id, deleting it changes nothing |
| TaskSlice.WithoutIdIdempotent | src/features/tasks/taskSlice.js:17-19 | deleting an id twice is the same as deleting it once |
| TaskSlice.WithoutIdAppend | src/features/tasks/taskSlice.js:18 | filtering a concatenation is concatenating the filtered parts |
| TaskSlice.FindIndex | src/features/tasks/taskSlice.js:21 | `findIndex` gives -1 exactly when no task has the id; otherwise the index holds the id and no earlier index does |
| TaskSlice.TaskStore.UpdateTask | src/features/tasks/taskSlice.js:20-25 | with a match, the first matching slot becomes the payload and the rest is unchanged; with none, the list is unchanged; the length is kept |
| TaskSlice.Updated | src/features/tasks/taskSlice.js:21-24 | `updateTask`'s effect on the list keeps its length; `UpdatedOverwritesFirstMatch`, `UpdatedWithoutMatch` and `UpdatedKeepsIds` state what it stores |
| TaskSlice.UpdatedOverwritesFirstMatch | src/features/tasks/taskSlice.js:21-23 | at the first index with the payload's id the payload is stored; the length and every other index are unchanged, later duplicates of the id included |
| TaskSlice.UpdatedWithoutMatch | src/features/tasks/taskSlice.js:22 | when no task has the payload's id, the list is unchanged |
| TaskSlice.UpdatedKeepsIds | src/features/tasks/taskSlice.js:21-23 | an update never changes the sequence of ids in the list |
| AxiosInstance.WithBearer | src/utils/axiosInstance.js:9-16 | `Authorization` becomes `"Bearer " + token` when the session token is truthy; otherwise the headers are left as they were; no other header changes |
| AxiosInstance.AuthClient.RequestHook | src/utils/axiosInstance.js:10-15 | the config's headers after the hook are the ones `WithBearer` gives for the current session token |
| AxiosInstance.AuthClient.SetCredentials | src/utils/axiosInstance.js:37 | dispatching `setCredentials` replaces the session by the given user and token |
| AxiosInstance.AuthClient.Logout | src/utils/axiosInstance.js:43 | dispatching `logout` resets the session to no user and no token |
| AxiosInstance.AuthClient.Transmit | src/utils/axiosInstance.js:32-41 | sending one request logs it on the wire and takes the next scripted answer (none when the script is exhausted), as `Sent` and `Answer` say |
| AxiosInstance.Call | src/utils/axiosInstance.js:9-41 | `axiosInstance(config)` keeps the base URL, sends at least one request, and never changes the config's URL or body; its branches are stated by `CallPassesSuccess`, `CallRejectsOtherErrors`, `CallWithoutRefreshToken`, `CallRefreshFails` and `CallRefreshesAndReplays`, and every run by `CallRefreshesAtMostOnce` and `CallKeepsStorage` |
| AxiosInstance.OnError | src/utils/axiosInstance.js:22-49 | the error hook keeps the base URL, only adds to the log, and never changes the config's URL or body; `OnErrorRefreshesAtMostOnce` bounds its refresh calls and replays |
| AxiosInstance.AuthClient.Request | src/utils/axiosInstance.js:9-50 | a request through the instance leaves the client, the config and the outcome exactly as `Call` says |
| AxiosInstance.AuthClient.OnResponseError | src/utils/axiosInstance.js:22-49 | the error hook leaves the client, the config and the outcome exactly as `OnError` says |
| AxiosInstance.CallPassesSuccess | src/utils/axiosInstance.js:21 | a 2xx response is resolved unchanged; only the request itself went out; session, storage and location are untouched; the final config (hooked headers, `_retry` mark) is stated exactly |
| AxiosInstance.CallRejectsOtherErrors | src/utils/axiosInstance.js:25-48 | an error that is not a 403, has no response, or is a 403 on a request already marked `_retry`, is rejected unchanged: there is no refresh call and no session, storage or location change; the final config (hooked headers, `_retry` mark) is stated exactly |
| AxiosInstance.CallWithoutRefreshToken | src/utils/axiosInstance.js:25-48 | on a first 403 with no truthy stored refresh token: the request is marked, there is no refresh call, the session is logged out, the location becomes `/`, storage is unchanged, and the original 403 is rejected; the final config (hooked headers, `_retry` mark) is stated exactly |
| AxiosInstance.CallRefreshFails | src/utils/axiosInstance.js:25-48 | on a first 403 whose refresh call fails (error status or no answer, script exhausted included): the whole new world is given; exactly one refresh call goes out, through plain `axios` with no headers; the session is logged out; the location becomes `/`; storage is unchanged; the original 403 is rejected; the final config (hooked headers, `_retry` mark) is stated exactly |
| AxiosInstance.CallRefreshesAndReplays | src/utils/axiosInstance.js:25-41 | on a first 403 whose refresh succeeds: the session keeps its user and takes `res.data.accessToken`; `localStorage['token']` gets it; the original request, with its body and other headers unchanged, is replayed once with `Bearer <new token>`; the log is exactly request, refresh, replay; the replay's result is the outcome; a failed replay, even a second 403, is rejected with no second refresh; the final config (hooked headers, `_retry` mark) is stated exactly |
| AxiosInstance.OnErrorRefreshesAtMostOnce | src/utils/axiosInstance.js:22-49 | the error hook makes at most one refresh call and at most one replay, none at all for a request already marked `_retry`; a refresh call implies the request was marked |
| AxiosInstance.CallRefreshesAtMostOnce | src/utils/axiosInstance.js:9-49 | a request goes out once or twice (once if already marked); there is at most one refresh call (none if already marked); the request is marked whenever a refresh was made |
| AxiosInstance.CallKeepsStorage | src/utils/axiosInstance.js:28-45 | no run writes or clears `localStorage['refreshToken']` or any key other than `token`; the base URL is unchanged |

## Left out

- The React views, styled components, routing and `fetch` calls in `src/pages/*.jsx`, `src/App.jsx`, `src/main.jsx` and `src/components/styledAuthComponents.js`. They are UI glue. `src/pages/dashboard.jsx:87` reads `state.tasks` as a bare array; the slice is modelled as written.
- `authSlice` and the store are not part of this model. `setCredentials` and `logout` are abstract session updates, as described above.
- The axios library. Joining the base URL to the path is taken to be concatenation, so absolute URLs and slash normalisation are not modelled. Default headers are ignored, and so is `Content-Type`. Success means a 2xx status (axios's default `validateStatus`).
- The request hook's error handler, `(err) => Promise.reject(err)` at `src/utils/axiosInstance.js:17`. The model has no failure before a request is sent.
- Promise and async scheduling, and concurrent requests that each trigger their own refresh. Every run is modelled as one uninterrupted sequence of steps.
- JSON values other than flat string-to-string objects. A refresh reply whose `data` is `null` would throw inside the `try` and log out. The model cannot express that reply.
- `localStorage` and `window.location` are a map and a string. Persistence across reloads and the page navigation itself are not modelled.
- AxiosInstance.AuthClient.Request: the hooks mutate the caller's config. In axios, `axiosInstance(config)` merges the caller's config into a new object before any hook runs, and the hooks mutate that copy. So a config object reused after a refreshed call carries `_retry` and the new `Authorization` header in the model, but not in the program.
- The HTTP method and config fields other than the URL, the body and the headers (query parameters, for one) are not modelled. The interceptor never reads them, and the replay re-sends the same config, so they carry over unchanged.
- The identity of the error object: a rejection carries the reply it was raised for. The error's `config` is taken to be the caller's `RequestConfig`, and its final state is returned with the outcome.
