# my-lambda: route table, lambda reload cache, gateway editor and HTTP client in Dafny

my-lambda is a small self-hosted "functions" server. Its back end does two jobs:

- It keeps an ordered table of HTTP routes. Each route maps a method and a path to a named lambda, plus rules that say where each of the lambda's arguments is read from in the request. After every change the table is registered on an Express router and written to a route file.
- It loads each lambda's module from disk. A module is loaded again when its file's modification time changes, and then its npm dependencies are installed.

The front end is an admin page. It edits a gateway (a route) in a form and talks to the server through a small XMLHttpRequest client.

This project models four pieces of that code and proves what they guarantee:

- `gateway.dfy`: the `GatewayService` class (back/src/gateway.ts). It covers the route table, the router rebuilt after every mutation, the persisted snapshot, the handler's parameter extraction, and `add`/`save`/`remove`.
- `lambda.dfy`: `LambdaService` (back/src/lambda.ts). It covers `resolver`, the `name -> mtime` cache and the reload decision, `grabLambda`, the `runNpmInstall` effect plan, and `run`.
- `application.dfy`: the conversions between a stored gateway and the edit form (`toGateway`/`fromGateway`), and the in-place edits of the selected form (front/src/application.tsx).
- `http.dfy`: the `Http` client (front/src/http.ts). It covers `parseHeaders`, `convertForXhr`, `sendRequest` (path prefixing and the status check) and the verb helpers.

Shared building blocks:

- `wrappers.dfy`: `Option`/`Result`.
- `collections.dfy`: the first-match search, `filter`, and the "last write wins" fold that builds an object from pairs.
- `strings.dfy`: JavaScript's `indexOf`, `substring`, `split`, `join` and `trim`, with their exact edge cases:
  - `substring` clamps negative bounds and swaps reversed ones, so `substring(0, -1)` is `""`;
  - `"".split('.')` is `[""]`;
  - `trim` removes the ECMAScript WhiteSpace and LineTerminator characters.

Collaborators are passed in as values describing their outcome. This covers the uuid generator, the file write, `fs.stat`, `require`, `mkdirp`, the spawned npm process, the lambda handler, XMLHttpRequest and `JSON.parse`. Calls are taken to run one at a time, sequentially.

Where the code decides, the model follows the code:

- `runNpmInstall` spawns `npm install` even when the dependency list is empty, unless the mkdir of `node_modules` failed. It creates `node_modules` only when the list is non-empty.
- `sendRequest` prefixes every path with the client's `root`. The one place that builds the client, `new Http()` (front/src/application.tsx:14), passes no root, so `root` is `undefined` and every URL is the text `"undefined"` followed by the path. The model keeps `root` as a parameter; that call site is the case `root == "undefined"`.
- The status check of `sendRequest` is `status < 200 && status >= 400`. No status satisfies it, so no response is rejected for its status. The model keeps that condition as written.
- `typeof null` is `'object'`. So `get` and `delete`, whose body is `null`, pass the text `"null"` to `xhr.send` with the JSON content type. The model records that text as the payload handed to the XMLHttpRequest. A browser then drops the body of a GET, and that is not modelled.
- `add` copies the client's own `uuid` over the generated one, when the client sends one.

## Model

| member | source | states |
|---|---|---|
| Lambda.Resolver | back/src/lambda.ts:8-13 | a truthy `err` rejects with that error; otherwise the callback resolves with `map(value)` |
| Lambda.PlainResolver | back/src/lambda.ts:8-13 | without `map`, a truthy error rejects and otherwise the value itself is resolved |
| Lambda.PlainResolverIsIdentityMap | back/src/lambda.ts:11 | leaving `map` out is the same as mapping with the identity |
| Lambda.RunNpmInstall | back/src/lambda.ts:89-103 | `node_modules` is created if and only if there are dependencies; `npm install ...deps` runs in the lambda's directory unless mkdir failed (also with no dependencies), after the mkdir; nothing else is done; the outcome is an error exactly on a mkdir error or a spawn `error` event, and carries that error |
| Lambda.ExitCodeIgnored | back/src/lambda.ts:100 | the exit code of npm never changes the result, and an exit resolves whenever the spawn ran |
| Lambda.WithDefaultDependencies | back/src/lambda.ts:79-81 | a module without `dependencies` gets `[]`; any other module is unchanged |
| Lambda.ReloadFlags | back/src/lambda.ts:66-73 | successive stats of one lambda yield one reload flag each |
| Lambda.ReloadsCountChanges | back/src/lambda.ts:68-71 | along a run of stats, the number of reloads is exactly the number of times the observed mtime differs from the cached one |
| Lambda.SteadyMtimeReloadsAtMostOnce | back/src/lambda.ts:68-71 | while the mtime stays the same, only the first call may reload, and none does when that mtime is already cached |
| Lambda.Required | back/src/lambda.ts:78 | `require` returns the registered module, or loads and registers the one on disk, or fails and registers nothing |
| Lambda.GrabOutcome | back/src/lambda.ts:64-87 | a failed stat changes nothing and rejects; a stat records the mtime for `name` only; without a reload the lambda is just required; a reload unregisters it, loads it, defaults its dependencies, registers it and provisions it, rejecting when provisioning fails |
| Lambda.RegrabAtSameMtime | back/src/lambda.ts:68-83 | after a grab that got past loading the module, a second grab at the same mtime performs no effect and returns the registered module, whatever the disk, mkdir and npm would do now |
| Lambda.FailedProvisioningNotRetried | back/src/lambda.ts:69-83 | a reload whose `npm install` failed is not retried: the next grab at that mtime succeeds with the defaulted module |
| Lambda.RunResult | back/src/lambda.ts:29-31 | `run` fails with the grab's failure, or yields the handler's result, or fails with the handler's error |
| Lambda.LambdaService.constructor | back/src/lambda.ts:62 | the cache and the module registry start empty |
| Lambda.LambdaService.Require | back/src/lambda.ts:78-85 | the registry and result are those of `Required` on the old registry |
| Lambda.LambdaService.CheckStale | back/src/lambda.ts:66-73 | a failed stat rejects and leaves the cache unchanged; otherwise the flag is "absent or unequal" against the old cache, and the cache entry of `name` is set to the observed mtime |
| Lambda.LambdaService.GrabLambda | back/src/lambda.ts:64-87 | the new cache, registry, effects and result are exactly `GrabOutcome` of the old state |
| Lambda.LambdaService.Run | back/src/lambda.ts:29-31 | the new state and effects are those of the grab, and the result is `RunResult` of the grab's result |
| Gateway.VerbOf | back/src/gateway.ts:93-111 | the `switch` recognises exactly the six lower-case labels, each as its own verb |
| Gateway.DispatchMatchesTable | back/src/gateway.ts:91-114 | the rebuilt router holds one registration per route whose method is one of the six labels, in table order, each under that route's path and its verb; other routes are skipped |
| Gateway.AssignedUuid | back/src/gateway.ts:35 | the new route's uuid is the input's own uuid when present, else the generated one |
| Gateway.IndexOfUuid | back/src/gateway.ts:43-59 | the index of the first route with the uuid, or none exactly when no route has it |
| Gateway.SavedTable | back/src/gateway.ts:42-54 | for an unknown uuid, no change; otherwise the same-length table in which only the first matching route changed, getting the input's method, path, params and lambda and keeping its uuid and position |
| Gateway.SaveKeepsUuids | back/src/gateway.ts:43-48 | `save` keeps every route's uuid in place |
| Gateway.SaveIdempotent | back/src/gateway.ts:42-54 | saving the same input twice under one uuid gives the table that saving it once gives |
| Gateway.RemovedTable | back/src/gateway.ts:56-63 | an unknown uuid gives the error `Route with uuid <uuid> not found`; otherwise the first matching route is spliced out, the others keeping their order |
| Gateway.RemoveUndoesAdd | back/src/gateway.ts:34-60 | removing the uuid of a route just appended under a new uuid restores the table |
| Gateway.ExtractFold | back/src/gateway.ts:128-133 | the fold over the keys succeeds exactly when every rule's source exists on the request; it then maps each key to `req[source][field]` (undefined when the field is missing); otherwise it names a missing source |
| Gateway.ExtractParams | back/src/gateway.ts:128-133 | the arguments have exactly the keys of `params`, each bound to its rule's field of the request; it fails exactly when some rule's source is missing |
| Gateway.HandleRequest | back/src/gateway.ts:116-122 | the handler replies with the lambda's value exactly when extraction and the lambda succeed; a failed extraction replies 500 with the missing source, and a lambda rejection replies 500 with the lambda's error as the body |
| Gateway.GatewayService.constructor | back/src/gateway.ts:73-80 | the table is `LoadedTable` of the route file: the stored table when the file loads (then registered on the router), the empty table otherwise |
| Gateway.GatewayService.List | back/src/gateway.ts:30-32 | returns the table, element for element |
| Gateway.GatewayService.ClearRouter | back/src/gateway.ts:124-126 | the router stack is emptied |
| Gateway.GatewayService.ApplyRoutes | back/src/gateway.ts:91-114 | the router gets the registrations of every route, in table order, after what it held |
| Gateway.GatewayService.SaveJson | back/src/gateway.ts:82-89 | a successful write persists the whole current table and resolves. A write refused at the open leaves the route file as it was. A write that fails after the open leaves a file with no readable table. Both failures reject with fs's own error |
| Gateway.GatewayService.Add | back/src/gateway.ts:34-40 | exactly one route is appended, with its assigned uuid and the input's fields; earlier routes are unchanged; the router matches the table; the route file is `PersistedAfter` the write; the result is the new last route, or the write's rejection |
| Gateway.GatewayService.Save | back/src/gateway.ts:42-54 | an unknown uuid leaves table, router and snapshot unchanged and resolves; otherwise the table becomes `SavedTable`, the router is rebuilt, the route file is `PersistedAfter` the write and the result is `WriteResult` |
| Gateway.GatewayService.Remove | back/src/gateway.ts:56-67 | an unknown uuid throws the not-found error with table, router and snapshot unchanged; otherwise the table becomes `RemovedTable`, the router is rebuilt, the route file is `PersistedAfter` the write and the result is `WriteResult` |
| Application.ToGateway | front/src/application.tsx:119-127 | uuid, method, path and lambda are copied; the params' keys are exactly the rows' names, and each name maps to the split path of the last row carrying it |
| Application.FromGateway | front/src/application.tsx:129-137 | other fields are copied; there is one row per key, with distinct names covering exactly the keys, each path being the key's segments joined with '.' |
| Application.ToFromGateway | front/src/application.tsx:125-135 | converting a stored gateway to the form and back gives it back if and only if every segment list is non-empty and no segment contains '.' |
| Application.FromToGateway | front/src/application.tsx:119-137 | a form with distinct row names survives conversion to a gateway and back, rows in order, when the keys come back in insertion order (no row name is an array index) |
| Application.FromToGatewayAnyOrder | front/src/application.tsx:119-137 | whatever order the keys are listed in, a form with distinct row names comes back with the same fields and the same rows, as many as before, reordered as the keys are |
| Application.RoundTripParam | front/src/application.tsx:125-135 | after the round trip each key maps to its segments joined and split again |
| Application.DistinctRowConverted | front/src/application.tsx:125 | with distinct names, each row's name maps to its own split path |
| Application.NewGateway | front/src/application.tsx:82-88 | the fresh form has no uuid, method 'get', path '/path', lambda 'myLambda' and no params |
| Application.WithoutName | front/src/application.tsx:77 | `_.remove` keeps exactly the rows with another name |
| Application.WithoutNameAppend | front/src/application.tsx:77 | removal keeps the relative order: it distributes over concatenation |
| Application.WithoutAbsentName | front/src/application.tsx:77 | removing a name no row has changes nothing |
| Application.WithPath | front/src/application.tsx:93 | same length; only the first row with the name changes, and only its path |
| Application.RemoveUndoesNewParameter | front/src/application.tsx:70-79 | removing the name of a row just added under a new name restores the rows |
| Application.WithPathConverted | front/src/application.tsx:92-95 | with distinct names, the path set on a row is what the saved gateway holds for that name, split at '.' |
| Application.GatewayStore.constructor | front/src/application.tsx:19 | no gateways and no selection |
| Application.GatewayStore.NewGatewayParameter | front/src/application.tsx:70-74 | with a selection, appends `{name, 'query.value'}` to its rows and changes nothing else; without one, it throws and nothing changes |
| Application.GatewayStore.RemoveGatewayParam | front/src/application.tsx:76-79 | with a selection, its rows become `WithoutName`; without one, it throws and nothing changes |
| Application.GatewayStore.SetGatewayParam | front/src/application.tsx:92-95 | the first row with the name gets the path; with no selection or no such row it throws and nothing changes |
| Application.GatewayStore.CreateNewGateway | front/src/application.tsx:81-90 | the selection becomes the fresh default form |
| Http.ConvertedHeaders | front/src/http.ts:86-93 | objects and null add `Content-Type: application/json` and keep the other headers; strings leave the headers as they are |
| Http.HeaderPairAtFirstColon | front/src/http.ts:78-79 | a line is cut at its first ':' into the trimmed name before it and the trimmed value after it |
| Http.HeaderPairWithoutColon | front/src/http.ts:78-79 | a line without ':' has the empty name (`substring(0, -1)`) |
| Http.AssignLinesKeys | front/src/http.ts:80-83 | the fold over the lines binds exactly the non-empty names the lines carry |
| Http.AssignLinesValue | front/src/http.ts:80-83 | a line with a non-empty name that no later line repeats gives that name its value |
| Http.ParseHeadersMeaning | front/src/http.ts:76-84 | the parsed headers have as keys exactly the non-empty names of the lines of the block split at '\n', and each name holds the value of the last line carrying it |
| Http.StatusRejected | front/src/http.ts:69-71 | the rejection test holds for no status at all |
| Http.HttpRequest.constructor | front/src/http.ts:1-6 | the request carries the given method, path, headers and body |
| Http.Http.constructor | front/src/http.ts:20-22 | the client keeps its root |
| Http.Http.ConvertForXhr | front/src/http.ts:86-93 | for an object or null, the headers get the JSON content type and the JSON text is returned; a string is returned as is and the headers are untouched |
| Http.Http.SendRequest | front/src/http.ts:40-74 | the path becomes root + path; method and body are kept; the headers are converted; exactly that request is handed to the XMLHttpRequest; the response always resolves, with the status, the parsed headers and the parsed data or raw text |
| Http.Http.Get | front/src/http.ts:24-26 | sends GET to root + path with only the JSON content type, passing "null" to `xhr.send`; resolves with the status, headers and data |
| Http.Http.Put | front/src/http.ts:28-30 | sends PUT to root + path with the converted empty headers and the body's payload; resolves with the status, headers and data |
| Http.Http.Post | front/src/http.ts:32-34 | sends POST to root + path with the converted empty headers and the body's payload; resolves with the status, headers and data |
| Http.Http.Delete | front/src/http.ts:36-38 | sends DELETE to root + path with only the JSON content type, passing "null" to `xhr.send`; resolves with the status, headers and data |
| Strings.IndexOf | front/src/http.ts:78 | `indexOf` gives -1 exactly when the character is absent, else the index of its first occurrence |
| Strings.IndexOfAfterPrefix | front/src/http.ts:78 | the first occurrence follows a prefix without the character |
| Strings.Substring | front/src/http.ts:79 | bounds at or below 0 give `""`; in-range bounds give the slice |
| Strings.SubstringFrom | front/src/http.ts:79 | from 0 or below, the whole string; in range, the suffix |
| Strings.Split | front/src/application.tsx:125 | `split` gives at least one piece and no piece contains the separator |
| Strings.JoinSplit | front/src/application.tsx:125-135 | joining the pieces of a split gives back the string |
| Strings.SplitJoin | front/src/application.tsx:125-135 | splitting a join gives back the pieces exactly when there is at least one and none contains the separator |
| Strings.TrimStartSpec | front/src/http.ts:79 | dropping leading whitespace leaves a suffix that does not start with whitespace, preceded only by whitespace |
| Strings.TrimEndSpec | front/src/http.ts:79 | dropping trailing whitespace leaves a prefix that does not end with whitespace, followed only by whitespace |
| Strings.TrimCut | front/src/http.ts:79 | `trim` neither starts nor ends with whitespace and is a contiguous part of the string with only whitespace around it |
| Strings.TrimOfTrimmed | front/src/http.ts:79 | a string without whitespace at either end is its own trim |
| Collections.FirstIndex | back/src/gateway.ts:43 | the first index satisfying the test, or none exactly when no element does |
| Collections.FilterSpec | back/src/gateway.ts:43 | `filter` is no longer than its input and keeps exactly the elements passing the test |
| Collections.FilterAppend | front/src/application.tsx:77 | filtering distributes over concatenation |
| Collections.FilterAll | front/src/application.tsx:77 | filtering with a test every element passes changes nothing |
| Collections.FromPairsKeys | front/src/application.tsx:125 | the object built from pairs in order has exactly the pairs' names as keys |
| Collections.FromPairsValue | front/src/application.tsx:125 | a pair that no later pair overrides gives its name's value |
| Gateway.RegistrationsForOne | back/src/gateway.ts:93-111 | one turn of the loop registers a route once, under its path and verb, when its method is one of the labels, and does nothing otherwise |
| Application.ToFromClean | front/src/application.tsx:119-137 | with clean segments everywhere, editing a gateway and converting it back gives the same gateway |
| Application.ToFromParamAt | front/src/application.tsx:125-135 | one key survives the round trip exactly when its segments are clean |
| Lambda.ShouldReload | back/src/lambda.ts:68 | a lambda is reloaded exactly when the cache holds no mtime for it or holds a different one |
| Lambda.LambdaPath | back/src/lambda.ts:65 | the directory of a lambda is `lambdas/<name>` (no contract of its own) |
| Lambda.NodeModules | back/src/lambda.ts:92 | the `node_modules` directory inside the lambda's directory (no contract of its own) |
| Lambda.NpmInstall | back/src/lambda.ts:97-99 | the spawn of `npm install ...deps` in the lambda's directory (no contract of its own; `RunNpmInstall` says when it happens) |
| Gateway.RegistrationsFor | back/src/gateway.ts:93-111 | what one turn of the `forEach` registers; its meaning is proved in `RegistrationsForOne` |
| Gateway.Dispatch | back/src/gateway.ts:91-114 | the router's stack after clearing and applying the table, as the loop accumulates it; its meaning is proved in `DispatchMatchesTable` |
| Gateway.Overwritten | back/src/gateway.ts:45-48 | the saved route keeps its uuid and takes method, path, params and lambda from the input |
| Gateway.NotFoundMessage | back/src/gateway.ts:62 | the text of the error `remove` throws for an unknown uuid (no contract of its own) |
| Gateway.Lookup | back/src/gateway.ts:130 | reading a field gives its value when the source has it, and `undefined` exactly when it does not |
| Http.HeaderPair | front/src/http.ts:77-79 | one header line cut into name and value; its meaning is proved in `HeaderPairAtFirstColon` and `HeaderPairWithoutColon` |
| Http.AssignLines | front/src/http.ts:80-83 | the `filter` and `reduce` over the cut lines as one left fold; its meaning is proved in `AssignLinesKeys` and `AssignLinesValue` |
| Http.ParseHeaders | front/src/http.ts:76-84 | `parseHeaders` as the fold over the lines split at '\n'; its meaning is proved in `ParseHeadersMeaning` |
| Http.Payload | front/src/http.ts:86-92 | the text `convertForXhr` returns: the JSON text of an object, `"null"` for null, a string as is (no contract of its own) |
| Strings.Join | front/src/application.tsx:135 | `join` with one separator between neighbours; its meaning is proved in `JoinSplit` and `SplitJoin` |
| Strings.TrimStart | front/src/http.ts:79 | drops leading whitespace; its meaning is proved in `TrimStartSpec` |
| Strings.TrimEnd | front/src/http.ts:79 | drops trailing whitespace; its meaning is proved in `TrimEndSpec` |
| Strings.Trim | front/src/http.ts:79 | `trim` as both of the above; its meaning is proved in `TrimCut` and `TrimOfTrimmed` |
| Collections.Filter | back/src/gateway.ts:43 | `filter`; its meaning is proved in `FilterSpec`, `FilterAppend` and `FilterAll` |
| Collections.FromPairs | front/src/application.tsx:125 | the last-write-wins `reduce` that builds an object from pairs; its meaning is proved in `FromPairsKeys` and `FromPairsValue` |
| Application.SplitPairs | front/src/application.tsx:125 | one pair per row, in row order: the row's name and its path split at '.' |
| Gateway.LoadedTable | back/src/gateway.ts:73-80 | the table `loadJson` starts from: the stored one, or `[]` when `require` of the route file throws (no contract of its own) |
| Gateway.PersistedAfter | back/src/gateway.ts:84 | the route file after `fs.writeFile` with flag 'w': the table when written, unchanged when the open failed, no readable table when the write failed after the open emptied the file (no contract of its own) |
| Gateway.WriteResult | back/src/gateway.ts:84-87 | the promise resolves on a successful write, and otherwise rejects with fs's own error (no contract of its own) |
| Gateway.RestartAfterWrite | back/src/gateway.ts:73-89 | the next start loads the written table after a success, what it loaded before after a failed open, and the empty table after a write that failed once the file was opened |
| Gateway.VerbName | back/src/gateway.ts:94-109 | each verb's `case` label, a non-empty string of lower-case letters, so `"GET"` matches none |
| Http.IsObject | front/src/http.ts:87 | `typeof data === 'object'`: true for null and objects, false for strings (no contract of its own) |
| Http.DataOf | front/src/http.ts:49-53 | the `JSON.parse` of the response text in a try/catch: the parsed value, or the raw text when it does not parse (no contract of its own) |
| Strings.Clamp | front/src/http.ts:79 | a `substring` bound clamped into `0..length`: negative bounds count as 0, bounds past the end as the length, and bounds in range are kept |
| Strings.IsWhitespace | front/src/http.ts:79 | membership in `Whitespace`, the ECMAScript WhiteSpace and LineTerminator characters `trim` removes (no contract of its own) |
| Application.DefaultParamPath | front/src/application.tsx:72 | the default path `'query.value'` of a new row, which splits into the segments `query` and `value` |

## Left out

- File, process and network I/O are not modelled. `fs.stat`, `fs.writeFile`, `mkdirp`, `child_process.spawn`, `require` and XMLHttpRequest are modelled only by the outcomes passed in; `console.log` is left out.
- `JSON.stringify` and `JSON.parse` are not modelled. An object body is given with its JSON text, and a parse result is given as a value or none.
- Promise and callback interleaving is not modelled: every call runs to completion before the next one starts.
- Gateway.GatewayService.Add: the aliasing of the returned route object with the table entry is not modelled, because the model works on values.
- Gateway.GatewayService.ApplyRoutes: registering a route never fails in the model. Express hands the path to path-to-regexp, which throws on a malformed path such as `"/("`. In the source that throw stops `applyRoutes` partway, leaving only the routes before it on the router. The same throw reaches four callers, none of which the model captures:
  - Gateway.GatewayService.Add, Gateway.GatewayService.Save and Gateway.GatewayService.Remove then throw after the table has changed, with the router holding only part of the table and `saveJson` never called. The model always rebuilds the whole router and goes on to write.
  - In Gateway.GatewayService.constructor, the catch of `loadJson` resets the table to `[]` but keeps the routes already registered on the router. The model ensures `Valid()` instead.
- Gateway.GatewayService.List: the source hands out the live array, so a caller could mutate the table. The model returns the table's value, so that aliasing is not captured.
- Gateway.ExtractParams: the order in which `Object.keys` enumerates the rules is a parameter. So is the order in `Application.FromGateway`. Rule values that are not `[source, field]` pairs, and the `__proto__` key, are not modelled.
- Gateway.HandleRequest: the Express router's path matching (`/users/:id`) and how Express reports an exception thrown by the fold are not modelled. The model answers status 500 with the failure.
- Lambda.LambdaPath: `path.normalize` and the `__dirname` prefix are not modelled. The lambda path is `lambdas/<name>`.
- Lambda.Resolver: any truthy `err` is modelled as `Some`. Falsy non-null error values (`0`, `""`) count as no error.
- Lambda.LambdaService.Run: the lambda handler is the function passed in, and a module's handler is an opaque number.
- `scan`, `read`, `write` and `remove` of `LambdaService` are file-system plumbing and not part of this model.
- Application.GatewayStore.NewGatewayParameter: the name comes from `prompt()`. Cancelling the prompt would give a `null` name, which is not modelled. `doRender` is not modelled either.
- The other handlers of the admin page (`selectGateway`, `saveGateway` and the lambda pages) are HTTP calls and rendering, and not part of this model.
- Application.FromToGateway: it reads the keys back in row order. JavaScript's `Object.keys` lists array-index names ("0", "1", "42") first, in ascending order, and then the other names in insertion order. So a form whose rows are named "b" then "1" comes back as "1", "b". Application.FromToGatewayAnyOrder covers every key order, with the rows only as a reordering.
- Lambda.LambdaService.CheckStale: the `lambdaCache` object is modelled as a map, and so is the cache in Lambda.ShouldReload and Lambda.GrabOutcome. In JavaScript, assigning the key `__proto__` sets the prototype and creates no own key, so a lambda named `__proto__` fails `hasOwnProperty` and reloads on every call. A lambda named `hasOwnProperty` replaces that method with its cache entry, so its next stat throws a TypeError inside the `fs.stat` callback. Neither case is modelled.
- Application.ToGateway: the `params` object is modelled as a map. A row named `__proto__` would set the object's prototype and vanish from its keys in JavaScript; the model keeps it as a key.
- Http.ParseHeaders: the result object is modelled as a map. A header named `__proto__` would set the object's prototype and vanish from its keys in JavaScript; the model keeps it as a key.
- Strings.Split: only one-character separators are modelled, which is all the source uses.
