# godotto service adapters in Dafny

This project models the marshaling and dispatch bridge of godotto's two
script-facing service adapters, `droplets` and `actions`. Each adapter builds
a script object that holds a fixed method table. Its methods turn untyped
script arguments into typed API requests, call the API client, and project the
typed records they get back onto fresh script objects. Every failure becomes a
script exception.

The JavaScript runtime and its helper package are a `Runtime` record of total
functions. Each one says, for every input, whether the operation fails and
with which message. A thrown exception is `Err(msg)` in a failure-compatible
`Result`, so `:-` stops the call exactly where `Throw` would. The API client is
a record of pure functions. Every host-callable method answers a `Reply`: its
result, plus the client calls it made, in order. That lets "throws before the
client is called" be written as `calls == []`.

Modules:

- `Results`: `Option`, `Result`, `Distinct`, `MapEach`, which applies a fallible step to every item in order and stops at the first failure, `ErrorOf`, the error of one step if it failed, and `FirstFault`, the first error among the outcomes of steps taken in order.
- `Script`: script values, object properties in insertion order, the `Runtime`, the property-reading coercions, and the shared "resource or its id" dispatch `ResolveId`.
- `Projector`: the fixed-field record-to-object projection that both `dropletToVM` and `actionToVM` are instances of.
- `Registrar`: binding a method table onto a fresh object, as both `Apply` functions do.
- `Droplets`: the droplets adapter.
  - `Apply`, `get`, `delete` and `create`.
  - The `list` pagination loop, as a method with loop invariants, next to a recursive reference walk `Paginate`.
  - The projector.
  - The eight placeholder methods, reached through `Invoke`.
- `Actions`: the actions adapter.
  - `Apply` and `get`.
  - The stream-draining `list`.
  - The projector with its 64-bit identifier widening.

The model keeps two quirks of `create` as written:

- It reads `backups`, `ipv6` and `private_networking` from the `image` sub-object rather than from the argument.
- It fills the user data from the argument's `size` property, so a request's user data always equals its size (`Droplets.RequestHead`).

Two behaviours of the code that the model keeps as they are:

- The actions `list` throws at the first projection failure. It drains no further records and never reads the terminal error. `Actions.Drain` does the same: the terminal error is consulted only when every emitted record projected.
- The droplet projector passes `id` as a Go `int`, while the action projector widens its identifiers to `int64`. The model keeps the two apart (`NInt` and `NInt64`).

## Model

| member | source | states |
|---|---|---|
| Results.MapEach | pkg/droplets/droplets.go:165-171 | Per-item projection succeeds iff every item projects. On success it gives one result per item, in order. On failure the error is the first failing item's, and all earlier items succeeded. |
| Script.ResolveId | pkg/droplets/droplets.go:111-119 | A number goes through the integer coercion. An object's `id` property is read and coerced, and a failing read throws its own error. Any other shape throws the adapter's shape error. |
| Script.NumberAndObjectResolveAlike | pkg/actions/actions.go:52-60 | A bare number and an object whose readable `id` holds that number resolve to the same identifier, or fail the same way. |
| Projector.Project | pkg/droplets/droplets.go:189-221 | A projection succeeds iff no field fails to convert or set. On success the keys are exactly the declared names, in order, and each holds the runtime's conversion of its field. On failure the error comes from the first failing field, and every earlier field succeeded. |
| Projector.FaultNamesField | pkg/droplets/droplets.go:212-218 | Every projection error is `can't prepare field "<name>": …` or `can't set field "<name>": …` for the field that failed. |
| Registrar.BindAll | pkg/droplets/droplets.go:24-44 | Binding succeeds iff no name fails to bind. It appends one property per name, in table order, each holding that name's host function. On failure the error names the first failing method. |
| Registrar.Build | pkg/droplets/droplets.go:14-46 | A failure to create the object is returned verbatim. Otherwise the result is an object whose keys are exactly the table's names, each bound to its method, or else the `preparing method` error of the first name that failed to bind. |
| Droplets.Apply | pkg/droplets/droplets.go:14-47 | The module object has exactly the twelve method names, from `list` to `neighbors`, as its keys, each bound to its method. Otherwise the first binding failure is reported and no object is returned. |
| Droplets.DropletToVM | pkg/droplets/droplets.go:189-221 | On success the keys are exactly the sixteen droplet field names, each holding its field's conversion. Success holds iff no field fails. On failure the error is that of the first field that failed, in declaration order, and it names that field. |
| Droplets.Get | pkg/droplets/droplets.go:107-130 | A bad argument shape, or an id that cannot be read, throws with no client call. Otherwise the droplet is fetched once by the resolved id. A client error is thrown verbatim, and a fetched droplet is projected. |
| Droplets.Delete | pkg/droplets/droplets.go:132-151 | Shape dispatch works as in `get`. The droplet is deleted once by the resolved id. A client error is thrown verbatim, and success answers the empty value. |
| Droplets.NumberOrObjectAlike | pkg/droplets/droplets.go:107-151 | For `get` and `delete`, passing an id and passing an object whose `id` holds it give the same answer and the same client calls. |
| Droplets.Crawl | pkg/droplets/droplets.go:155-178 | The pagination loop requests pages 1, 2, 3, … with 200 per page, and computes exactly the recursive reference walk from page 1. |
| Droplets.List | pkg/droplets/droplets.go:153-185 | `list()` requests pages 1, 2, 3, … with 200 per page. Its answer is the reference walk turned into one array. |
| Droplets.ToArray | pkg/droplets/droplets.go:180-184 | A walk error is thrown unchanged. An array is returned iff the walk succeeded and the array conversion succeeds, and it holds exactly the collected values. Otherwise the conversion error is thrown. |
| Droplets.PaginateRequestsPagesInOrder | pkg/droplets/droplets.go:155-175 | A walk from page p requests p, p+1, … in order, one request each, with 200 per page. It makes at least one request and never goes past one page beyond the client's pages. |
| Droplets.PaginateStopsAtLastPage | pkg/droplets/droplets.go:173-177 | Every page before the walk's last request was fetched and projected, and had links that did not mark it as the last page. On success the last page has no links or is marked last. |
| Droplets.PaginateConcatenatesPages | pkg/droplets/droplets.go:157-171 | A successful walk yields the projections of every requested page's droplets, one for one, in page order and, within a page, in response order. |
| Droplets.PaginateFailsOnLastPage | pkg/droplets/droplets.go:160-169 | A failed walk failed on its last request. Either that page's fetch error or the first projection error of its droplets is the walk's error, so no partial array exists. |
| Droplets.CreateTargets | pkg/droplets/droplets.go:60-68 | `image` is read and checked before `ssh_keys`. A read that throws passes its error on. A property that does not hold an object throws its own message. Success gives exactly the two objects read. |
| Droplets.RequestHead | pkg/droplets/droplets.go:70-82 | Name, region and size come from the argument. Image id, slug, and the backups, IPv6 and private-networking flags come from `image`. The user data equals the size. No SSH keys are set yet. The head is built iff all nine reads succeed. Otherwise the first failing read, in the literal's evaluation order, throws. |
| Droplets.SshKeyEntry | pkg/droplets/droplets.go:84-92 | A key is built iff the entry reads, is an object, and its `id` and `fingerprint` read. An unreadable entry throws the read error. A non-object entry throws `'ssh_keys' field must be an object`. Then the `id` error, then the `fingerprint` error. A built key holds exactly the entry's `id` and `fingerprint`. |
| Droplets.BuildRequest | pkg/droplets/droplets.go:55-93 | A request is built iff the targets check out, the head builds and every `ssh_keys` entry builds. It then holds the head fields and exactly one SSH key per key of `ssh_keys`, in key order. Otherwise the first failure throws: the target error, then the head error, then the first failing entry's error in key order. |
| Droplets.Create | pkg/droplets/droplets.go:53-105 | The argument, then `image`, then `ssh_keys` must be objects, each failure throwing its exact message with no client call. The client is called iff the request could be built, and then exactly once with that request. Otherwise the build error is thrown. A client error is thrown verbatim. |
| Droplets.CreateRejectsNonObjectKey | pkg/droplets/droplets.go:84-95 | If the head builds and every earlier entry builds, a non-object entry under the i-th key of `ssh_keys` makes `create` throw `'ssh_keys' field must be an object` with no client call. |
| Droplets.MethodTableSplits | pkg/droplets/droplets.go:28-39 | The twelve table names are exactly `list`, `get`, `create` and `delete` plus the eight placeholders, and no working method is a placeholder. |
| Droplets.Invoke | pkg/droplets/droplets.go:223-256 | Each of the eight placeholders throws `not implemented!` and makes no client call. The four real methods answer as their definitions do. |
| Actions.Apply | pkg/actions/actions.go:17-41 | The module object has exactly the keys `get` and `list`, each bound to its method. Otherwise the first binding failure is reported and no object is returned. |
| Actions.ActionToVM | pkg/actions/actions.go:96-121 | On success the keys are exactly the eight action field names, each holding its field's conversion. Success holds iff no field fails. On failure the error is that of the first field that failed, in declaration order, and it names that field. |
| Actions.ActionIdsWidened | pkg/actions/actions.go:103-108 | `id` and `resource_id` hold the identifiers converted as 64-bit integers. The two timestamps hold their RFC 3339 text. |
| Actions.Get | pkg/actions/actions.go:48-71 | A bad argument shape, or an unreadable id, throws with no client call. Otherwise one fetch is made by the resolved id. A client error is thrown verbatim, and a fetched action is projected. |
| Actions.NumberOrObjectAlike | pkg/actions/actions.go:52-60 | Passing an action id and passing an object whose `id` holds it give the same answer and client calls. |
| Actions.Drain | pkg/actions/actions.go:76-88 | The drain succeeds iff every emitted record projects and there is no terminal error. It keeps emission order. If any record fails to project, the first failure's error is thrown, whatever the terminal error. Only when every record projected does a terminal error throw. |
| Actions.List | pkg/actions/actions.go:73-94 | `list()` makes one list call. It returns an array iff the drain succeeds and the array conversion succeeds, and the array holds exactly the drained projections, in emission order. Otherwise the drain error or the conversion error is thrown, so no partial array is returned. |

## Left out

- The JavaScript runtime is abstract only where it can fail or convert: creating an object (`objectFault`), setting a property (`setFault`), reading a property (`getFault`), converting a native value (`toValue`) and converting a slice to an array (`arrayFault`), plus the coercions. Object storage, key enumeration and property lookup are concrete and never fail. The runtime library and its evaluator are not part of this model.
- Script.Keys: keys come back in insertion order, and an array's keys are exactly its indices 0 to n-1, with no holes. Sparse arrays are not modelled, and neither is any key order the runtime may use other than insertion order.
- Script.Lookup: a lookup reads own properties only. The runtime's property read also finds inherited properties, so an object whose `id` comes from its prototype resolves to that id in the program but to the coercion of `undefined` in the model. Property getters are not modelled. A host function has no properties, so a function value carrying an `id` property cannot be written as a model input.
- The helper package's coercions `Int`, `String` and `Bool` are abstract partial functions. How `Int` truncates a floating-point number is not modelled.
- Go's machine integer widths are not modelled. The conversion from the coerced integer to the request's `int`, and the widening to `int64`, are taken as value-preserving.
- The projectors discard the error of creating their empty object. The model assumes that creation succeeds there, and a nil object is not modelled.
- Go panics that are not script exceptions, such as a nil record or response from the client, are not modelled.
- The API client's HTTP transport, authentication and request context are not part of this model. `IsLastPage` belongs to the client library and is a boolean on each response.
- Droplets.Paginate: a real server might never report the last page. The client is given a finite list of page responses, and a page past its end is empty with no links. So every walk ends, and a server that keeps announcing more pages forever is not modelled.
- Actions.Drain: the producer goroutine and its two channels are a finite sequence of records plus one optional terminal error. Interleaving is not modelled, and neither is the producer left blocked when the consumer throws early.
- Timestamps are opaque strings already formatted as RFC 3339 date-times with nanoseconds (section 5.6 of RFC 3339). The formatting itself is library code.
- Droplets.RequestHead: `size` is read twice, and the model assumes the second read gives the same answer as the first. A property getter that changes its answer between reads is not modelled.
- Only the first argument of each script call is modelled, since the adapters read no other.
- The placement of each adapter's object in the global script surface is done outside these two files and is not part of this model.
- Script.Quoted: Go's `%q` quoting is modelled only for names without quotes, backslashes or control characters, which covers every method and field name used here.
- Script.Value: an `Obj` whose property list repeats a name is not a script object, but the datatype does not exclude it. For such a value `Keys` repeats the name, and `create` would build one SSH key per repetition. Objects with duplicate property names are not modelled.
- Script.Value: script numbers are exact reals, not IEEE-754 doubles. NaN, the infinities and negative zero are not modelled, so `get(NaN)` or `delete(Infinity)` cannot be written as a model input. What the integer coercion does with them is the runtime's business.
