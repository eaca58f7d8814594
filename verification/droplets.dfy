/** The droplets adapter: the script-facing `droplets` module.

    It binds a fixed table of twelve methods. `get` and `delete` take a
    droplet or its id, `list` walks every page of the account's droplets,
    `create` builds a creation request from a script object, and the eight
    remaining methods are placeholders that always throw. The API client is a
    record of pure functions; every method answers with its result and the
    client calls it made. */
module Droplets {
  import opened Results
  import opened Script
  import Projector
  import Registrar

  /** A droplet record as the API client returns it. Nested records are
      opaque; `created` is the provider's timestamp string. */
  datatype Droplet = Droplet(
    id: int,
    name: string,
    memory: int,
    vcpus: int,
    disk: int,
    region: Native,
    image: Native,
    size: Native,
    sizeSlug: string,
    backupIds: seq<int>,
    snapshotIds: seq<int>,
    locked: bool,
    status: string,
    networks: Native,
    created: string,
    kernel: Native)

  /** Pagination metadata of one list response. */
  datatype Links = Links(isLastPage: bool)

  /** One list response: its droplets and its links, which may be absent. */
  datatype Page = Page(items: seq<Droplet>, links: Option<Links>)

  datatype ListOptions = ListOptions(page: int, perPage: int)

  datatype CreateImage = CreateImage(id: int, slug: string)

  datatype SshKeyRef = SshKeyRef(id: int, fingerprint: string)

  datatype CreateRequest = CreateRequest(
    name: string,
    region: string,
    size: string,
    image: CreateImage,
    backups: bool,
    ipv6: bool,
    privateNetworking: bool,
    userData: string,
    sshKeys: seq<SshKeyRef>)

  /** The droplets API client. A list request for page p (counting from 1)
      is answered by `pages[p - 1]`; a page past the end of `pages` is empty
      and carries no links, so every walk over the pages is finite. */
  datatype Client = Client(
    get: int -> Result<Droplet>,
    delete: int -> Option<string>,
    create: CreateRequest -> Result<Droplet>,
    pages: seq<Result<Page>>)

  /** A call the adapter made on the client. */
  datatype ClientCall =
    | GetCall(id: int)
    | DeleteCall(id: int)
    | ListCall(opt: ListOptions)
    | CreateCall(req: CreateRequest)

  const Service := "droplets"

  const MethodNames: seq<string> := [
    "list", "listByTag", "get", "create", "createMultiple", "delete",
    "deleteByTag", "kernels", "snapshots", "backups", "actions", "neighbors"]

  /** The methods of the table that are placeholders. */
  const Unimplemented: set<string> := {
    "listByTag", "createMultiple", "deleteByTag", "kernels",
    "snapshots", "backups", "actions", "neighbors"}

  const NotImplemented := "not implemented!"
  const BadIdArg := "argument must be a Droplet or a DropletID"
  const ArgNotObject := "argument must be a object"
  const NoImage := "object must contain an 'image' field"
  const NoSshKeys := "object must contain an 'ssh_keys' field"
  const SshKeyNotObject := "'ssh_keys' field must be an object"
  const PerPage := 200

  const DropletFieldNames: seq<string> := [
    "id", "name", "memory", "vcpus", "disk", "region", "image", "size",
    "size_slug", "backup_ids", "snapshot_ids", "locked", "status",
    "networks", "created_at", "kernel"]

  lemma MethodNamesDistinct()
    ensures Distinct(MethodNames)
  {
  }

  // ---------------------------------------------------------------------
  // Registration

  /** Builds the `droplets` module object. On success its keys are exactly
      the twelve method names, in table order, each bound to that method; a
      failure to create the object is returned as is, and a failure to bind
      a method is reported as `preparing method "<name>", <error>` for the
      first method that could not be bound. */
  function Apply(rt: Runtime): (r: Result<Value>)
    ensures rt.objectFault.Some? ==> r == Err(rt.objectFault.value)
    ensures r.Ok? <==> rt.objectFault.None?
                       && forall i :: 0 <= i < |MethodNames| ==>
                            Registrar.BindFault(rt, Service, MethodNames[i]).None?
    ensures r.Ok? ==> r.value.Obj? && Keys(r.value) == MethodNames
    ensures r.Ok? ==> forall i :: 0 <= i < |MethodNames| ==>
                        Lookup(r.value, MethodNames[i]) == HostFn(Service, MethodNames[i])
    ensures rt.objectFault.None? && r.Err? ==>
              exists i :: 0 <= i < |MethodNames|
                && (forall j :: 0 <= j < i ==> Registrar.BindFault(rt, Service, MethodNames[j]).None?)
                && Registrar.BindFault(rt, Service, MethodNames[i]) == Some(r.msg)
  {
    MethodNamesDistinct();
    Registrar.Build(rt, Service, MethodNames)
  }

  // ---------------------------------------------------------------------
  // Projection

  function DropletFields(d: Droplet): (fields: seq<Projector.Field>)
    ensures Projector.FieldNames(fields) == DropletFieldNames
  {
    [ Projector.Field("id", NInt(d.id)),
      Projector.Field("name", NString(d.name)),
      Projector.Field("memory", NInt(d.memory)),
      Projector.Field("vcpus", NInt(d.vcpus)),
      Projector.Field("disk", NInt(d.disk)),
      Projector.Field("region", d.region),
      Projector.Field("image", d.image),
      Projector.Field("size", d.size),
      Projector.Field("size_slug", NString(d.sizeSlug)),
      Projector.Field("backup_ids", NInts(d.backupIds)),
      Projector.Field("snapshot_ids", NInts(d.snapshotIds)),
      Projector.Field("locked", NBool(d.locked)),
      Projector.Field("status", NString(d.status)),
      Projector.Field("networks", d.networks),
      Projector.Field("created_at", NString(d.created)),
      Projector.Field("kernel", d.kernel) ]
  }

  lemma DropletFieldNamesDistinct()
    ensures Distinct(DropletFieldNames)
  {
  }

  /** Projects a droplet onto a script object. On success the object's keys
      are exactly the sixteen droplet field names, in order, each holding the
      runtime's conversion of the corresponding record field. On failure the
      error is that of the first field, in declaration order, that could not
      be converted or set: `can't prepare field "<name>": …` or `can't set
      field "<name>": …` for that field. */
  function DropletToVM(rt: Runtime, d: Droplet): (r: Result<Value>)
    ensures r.Ok? ==> r.value.Obj? && Keys(r.value) == DropletFieldNames
    ensures r.Ok? <==> forall i :: 0 <= i < |DropletFieldNames| ==>
                         Projector.FieldFault(rt, DropletFields(d)[i]).None?
    ensures r.Ok? ==> forall i :: 0 <= i < |DropletFieldNames| ==>
                        Lookup(r.value, DropletFieldNames[i]) == rt.toValue(DropletFields(d)[i].native).value
    ensures r.Err? ==> exists i :: 0 <= i < |DropletFieldNames|
                         && (forall j :: 0 <= j < i ==> Projector.FieldFault(rt, DropletFields(d)[j]).None?)
                         && Projector.FieldFault(rt, DropletFields(d)[i]) == Some(r.msg)
    ensures r.Err? ==> exists i, e :: 0 <= i < |DropletFieldNames|
                         && (r.msg == Projector.PrepareError(DropletFieldNames[i], e)
                             || r.msg == Projector.SetError(DropletFieldNames[i], e))
  {
    DropletFieldNamesDistinct();
    var fields := DropletFields(d);
    var r := Projector.Project(rt, fields);
    if r.Err? then
      var i :| 0 <= i < |fields| && Projector.FieldFault(rt, fields[i]) == Some(r.msg);
      Projector.FaultNamesField(rt, fields[i]);
      r
    else
      r
  }

  // ---------------------------------------------------------------------
  // get and delete

  /** `get(dropletOrId)`: resolves the id, fetches the droplet once and
      projects it. A bad argument shape throws before the client is called;
      a client error is thrown verbatim. */
  function Get(rt: Runtime, c: Client, arg: Value): (reply: Reply<ClientCall>)
    ensures !arg.Number? && !IsObject(arg) ==> reply == Reply(Err(BadIdArg), [])
    ensures reply.calls == [] <==> ResolveId(rt, arg, BadIdArg).Err?
    ensures reply.calls == [] ==> reply.result == Err(ResolveId(rt, arg, BadIdArg).msg)
    ensures reply.calls != [] ==>
              var id := ResolveId(rt, arg, BadIdArg).value;
              && reply.calls == [GetCall(id)]
              && (c.get(id).Err? ==> reply.result == Err(c.get(id).msg))
              && (c.get(id).Ok? ==> reply.result == DropletToVM(rt, c.get(id).value))
  {
    match ResolveId(rt, arg, BadIdArg)
    case Err(e) => Reply(Err(e), [])
    case Ok(id) =>
      var result := match c.get(id)
        case Err(e) => Err(e)
        case Ok(d) => DropletToVM(rt, d);
      Reply(result, [GetCall(id)])
  }

  /** `delete(dropletOrId)`: resolves the id and deletes the droplet once,
      answering the empty value on success. A bad argument shape throws
      before the client is called; a client error is thrown verbatim. */
  function Delete(rt: Runtime, c: Client, arg: Value): (reply: Reply<ClientCall>)
    ensures !arg.Number? && !IsObject(arg) ==> reply == Reply(Err(BadIdArg), [])
    ensures reply.calls == [] <==> ResolveId(rt, arg, BadIdArg).Err?
    ensures reply.calls == [] ==> reply.result == Err(ResolveId(rt, arg, BadIdArg).msg)
    ensures reply.calls != [] ==>
              var id := ResolveId(rt, arg, BadIdArg).value;
              && reply.calls == [DeleteCall(id)]
              && (c.delete(id).Some? ==> reply.result == Err(c.delete(id).value))
              && (c.delete(id).None? ==> reply.result == Ok(Empty))
  {
    match ResolveId(rt, arg, BadIdArg)
    case Err(e) => Reply(Err(e), [])
    case Ok(id) =>
      var result := match c.delete(id)
        case Some(e) => Err(e)
        case None => Ok(Empty);
      Reply(result, [DeleteCall(id)])
  }

  /** Passing a droplet id and passing an object whose `id` property holds
      that id are indistinguishable to `get` and `delete`. */
  lemma NumberOrObjectAlike(rt: Runtime, c: Client, x: real, o: Value)
    requires IsObject(o)
    requires rt.getFault(o, "id").None?
    requires Lookup(o, "id") == Number(x)
    ensures Get(rt, c, o) == Get(rt, c, Number(x))
    ensures Delete(rt, c, o) == Delete(rt, c, Number(x))
  {
    NumberAndObjectResolveAlike(rt, x, o, BadIdArg);
  }

  // ---------------------------------------------------------------------
  // list

  /** The client's answer to one list request. */
  function Fetch(c: Client, opt: ListOptions): Result<Page> {
    if 1 <= opt.page <= |c.pages| then c.pages[opt.page - 1] else Ok(Page([], None))
  }

  /** The answer to the request for page `page` with 200 droplets per page. */
  function Response(c: Client, page: int): Result<Page> {
    Fetch(c, ListOptions(page, PerPage))
  }

  /** A response asks for another request only when it has links and they
      do not mark it as the last page. */
  predicate MorePages(p: Page) {
    p.links.Some? && !p.links.value.isLastPage
  }

  /** A walk over the pages: the droplets projected so far, or the error that
      ended the walk, and the list requests made. */
  datatype Walk = Walk(items: Result<seq<Value>>, calls: seq<ClientCall>)

  /** Prefixes a walk with droplets and requests made before it. */
  function Resume(acc: seq<Value>, calls: seq<ClientCall>, w: Walk): Walk {
    Walk(if w.items.Ok? then Ok(acc + w.items.value) else w.items, calls + w.calls)
  }

  /** Prefixing in two steps is prefixing once with both prefixes joined. */
  lemma ResumeTwice(acc: seq<Value>, calls: seq<ClientCall>, vs: seq<Value>, more: seq<ClientCall>, w: Walk)
    ensures Resume(acc, calls, Resume(vs, more, w)) == Resume(acc + vs, calls + more, w)
  {
    assert calls + (more + w.calls) == (calls + more) + w.calls;
    if w.items.Ok? {
      assert acc + (vs + w.items.value) == (acc + vs) + w.items.value;
    }
  }

  /** The pagination walk from page `page` on, projecting droplets with
      `project`: fetch the page, project its droplets, and go on with the
      next page only if the response says more pages follow. */
  function Paginate(c: Client, project: Droplet -> Result<Value>, page: int): Walk
    requires 1 <= page <= |c.pages| + 1
    decreases |c.pages| + 1 - page
  {
    var opt := ListOptions(page, PerPage);
    match Fetch(c, opt)
    case Err(e) => Walk(Err(e), [ListCall(opt)])
    case Ok(p) =>
      match MapEach(project, p.items)
      case Err(e) => Walk(Err(e), [ListCall(opt)])
      case Ok(vs) =>
        if MorePages(p) then Resume(vs, [ListCall(opt)], Paginate(c, project, page + 1))
        else Walk(Ok(vs), [ListCall(opt)])
  }

  /** Turns the collected droplets into a script array. */
  function ToArray(rt: Runtime, items: Result<seq<Value>>): (r: Result<Value>)
    ensures items.Err? ==> r == Err(items.msg)
    ensures r.Ok? <==> items.Ok? && rt.arrayFault(items.value).None?
    ensures r.Ok? ==> r.value == Array(items.value)
    ensures items.Ok? && rt.arrayFault(items.value).Some? ==> r == Err(rt.arrayFault(items.value).value)
  {
    match items
    case Err(e) => Err(e)
    case Ok(vs) =>
      match rt.arrayFault(vs)
      case Some(e) => Err(e)
      case None => Ok(Array(vs))
  }

  /** The reference answer of `list()`: the walk from page 1 with the
      droplet projector, as an array. */
  function ListReply(rt: Runtime, c: Client): Reply<ClientCall> {
    var w := Paginate(c, d => DropletToVM(rt, d), 1);
    Reply(ToArray(rt, w.items), w.calls)
  }

  /** The pagination loop: requests pages 1, 2, 3, … with 200 droplets per
      page, appending each page's projected droplets, until a response has
      no links or is the last page; a fetch or projection error ends it at
      once. It computes the reference walk from page 1. */
  method Crawl(c: Client, project: Droplet -> Result<Value>) returns (w: Walk)
    ensures |w.calls| >= 1
    ensures forall i :: 0 <= i < |w.calls| ==> w.calls[i] == ListCall(ListOptions(i + 1, PerPage))
    ensures w == Paginate(c, project, 1)
  {
    var page := 1;
    var acc: seq<Value> := [];
    var calls: seq<ClientCall> := [];
    var whole := Paginate(c, project, 1);
    PaginateRequestsPagesInOrder(c, project, 1);
    assert [] + whole.calls == whole.calls;
    if whole.items.Ok? {
      assert [] + whole.items.value == whole.items.value;
    }
    while true
      invariant 1 <= page <= |c.pages| + 1
      invariant whole == Resume(acc, calls, Paginate(c, project, page))
      decreases |c.pages| + 1 - page
    {
      var opt := ListOptions(page, PerPage);
      var resp := Fetch(c, opt);
      if resp.Err? {
        return Walk(Err(resp.msg), calls + [ListCall(opt)]);
      }
      var vs := MapEach(project, resp.value.items);
      if vs.Err? {
        return Walk(Err(vs.msg), calls + [ListCall(opt)]);
      }
      if !MorePages(resp.value) {
        return Walk(Ok(acc + vs.value), calls + [ListCall(opt)]);
      }
      assert Paginate(c, project, page) == Resume(vs.value, [ListCall(opt)], Paginate(c, project, page + 1));
      ResumeTwice(acc, calls, vs.value, [ListCall(opt)], Paginate(c, project, page + 1));
      acc := acc + vs.value;
      calls := calls + [ListCall(opt)];
      page := page + 1;
    }
  }

  /** `list()`: the pagination loop with the droplet projector, whose
      droplets become one script array. It requests pages 1, 2, 3, … with 200
      droplets per page, and any error yields no array. */
  method List(rt: Runtime, c: Client) returns (reply: Reply<ClientCall>)
    ensures |reply.calls| >= 1
    ensures forall i :: 0 <= i < |reply.calls| ==> reply.calls[i] == ListCall(ListOptions(i + 1, PerPage))
    ensures reply == ListReply(rt, c)
  {
    var w := Crawl(c, d => DropletToVM(rt, d));
    reply := Reply(ToArray(rt, w.items), w.calls);
  }

  /** The walk from `page` requests that page and the ones after it, one at
      a time, each with 200 droplets per page. */
  lemma {:induction false} PaginateRequestsPagesInOrder(c: Client, project: Droplet -> Result<Value>, page: int)
    requires 1 <= page <= |c.pages| + 1
    ensures |Paginate(c, project, page).calls| >= 1
    ensures page + |Paginate(c, project, page).calls| <= |c.pages| + 2
    ensures forall i :: 0 <= i < |Paginate(c, project, page).calls| ==>
              Paginate(c, project, page).calls[i] == ListCall(ListOptions(page + i, PerPage))
    decreases |c.pages| + 1 - page
  {
    var resp := Response(c, page);
    if resp.Ok? && MapEach(project, resp.value.items).Ok? && MorePages(resp.value) {
      PaginateRequestsPagesInOrder(c, project, page + 1);
    }
  }

  /** Every page before the last one the walk requests was fetched, its
      droplets projected, and it said that more pages follow; when the walk
      succeeds, the last page said that no more pages follow. */
  lemma {:induction false} PaginateStopsAtLastPage(c: Client, project: Droplet -> Result<Value>, page: int)
    requires 1 <= page <= |c.pages| + 1
    ensures var w := Paginate(c, project, page);
            forall q :: page <= q < page + |w.calls| - 1 ==>
              && Response(c, q).Ok?
              && MorePages(Response(c, q).value)
              && MapEach(project, Response(c, q).value.items).Ok?
    ensures var w := Paginate(c, project, page);
            var last := Response(c, page + |w.calls| - 1);
            w.items.Ok? ==> last.Ok? && !MorePages(last.value)
    decreases |c.pages| + 1 - page
  {
    var resp := Response(c, page);
    if resp.Ok? && MapEach(project, resp.value.items).Ok? && MorePages(resp.value) {
      PaginateStopsAtLastPage(c, project, page + 1);
      var w := Paginate(c, project, page);
      var w' := Paginate(c, project, page + 1);
      assert |w.calls| == 1 + |w'.calls|;
    }
  }

  /** The droplets of `n` consecutive pages from `page`, in page order. */
  function PagesItems(c: Client, page: int, n: nat): seq<Droplet>
    decreases n
  {
    if n == 0 then []
    else
      var resp := Response(c, page);
      (if resp.Ok? then resp.value.items else []) + PagesItems(c, page + 1, n - 1)
  }

  /** `vs` are the projections of `ds`, one for one and in order. */
  predicate Projects(project: Droplet -> Result<Value>, ds: seq<Droplet>, vs: seq<Value>) {
    |vs| == |ds| && forall j :: 0 <= j < |ds| ==> project(ds[j]) == Ok(vs[j])
  }

  lemma ProjectsConcat(project: Droplet -> Result<Value>, ds: seq<Droplet>, vs: seq<Value>,
                       ds': seq<Droplet>, vs': seq<Value>)
    requires Projects(project, ds, vs) && Projects(project, ds', vs')
    ensures Projects(project, ds + ds', vs + vs')
  {
    forall j | 0 <= j < |ds| + |ds'|
      ensures project((ds + ds')[j]) == Ok((vs + vs')[j])
    {
      if j >= |ds| {
        assert (ds + ds')[j] == ds'[j - |ds|];
        assert (vs + vs')[j] == vs'[j - |ds|];
      }
    }
  }

  /** A successful walk yields the projections of the droplets of every page
      it requested, in page order and, within a page, in response order. */
  lemma {:induction false} PaginateConcatenatesPages(c: Client, project: Droplet -> Result<Value>, page: int)
    requires 1 <= page <= |c.pages| + 1
    ensures var w := Paginate(c, project, page);
            w.items.Ok? ==> Projects(project, PagesItems(c, page, |w.calls|), w.items.value)
    decreases |c.pages| + 1 - page
  {
    var w := Paginate(c, project, page);
    var resp := Response(c, page);
    if w.items.Ok? {
      var p := resp.value;
      var vs := MapEach(project, p.items).value;
      assert Projects(project, p.items, vs);
      if MorePages(p) {
        var w' := Paginate(c, project, page + 1);
        assert w == Resume(vs, [ListCall(ListOptions(page, PerPage))], w');
        PaginateConcatenatesPages(c, project, page + 1);
        var rest := PagesItems(c, page + 1, |w'.calls|);
        assert PagesItems(c, page, |w.calls|) == p.items + rest;
        ProjectsConcat(project, p.items, vs, rest, w'.items.value);
      } else {
        assert PagesItems(c, page + 1, 0) == [];
        assert PagesItems(c, page, 1) == p.items + [];
      }
    }
  }

  /** A walk that fails was ended by its last request: either that page
      could not be fetched and its error is the walk's, or one of its
      droplets could not be projected and that error is the walk's. */
  lemma {:induction false} PaginateFailsOnLastPage(c: Client, project: Droplet -> Result<Value>, page: int)
    requires 1 <= page <= |c.pages| + 1
    ensures var w := Paginate(c, project, page);
            var last := Response(c, page + |w.calls| - 1);
            w.items.Err? ==>
              || (last.Err? && w.items.msg == last.msg)
              || (last.Ok? && MapEach(project, last.value.items) == Err(w.items.msg))
    decreases |c.pages| + 1 - page
  {
    var resp := Response(c, page);
    if resp.Ok? && MapEach(project, resp.value.items).Ok? && MorePages(resp.value) {
      PaginateFailsOnLastPage(c, project, page + 1);
      var w := Paginate(c, project, page);
      var w' := Paginate(c, project, page + 1);
      assert |w.calls| == 1 + |w'.calls|;
    }
  }

  // ---------------------------------------------------------------------
  // create

  /** The `image` and `ssh_keys` objects of a creation argument, read and
      checked in that order: a read that throws passes its error on, and a
      property that does not hold an object throws that field's message. */
  function CreateTargets(rt: Runtime, arg: Value): (r: Result<(Value, Value)>)
    requires IsObject(arg)
    ensures rt.getFault(arg, "image").Some? ==> r == Err(rt.getFault(arg, "image").value)
    ensures rt.getFault(arg, "image").None? && !IsObject(Lookup(arg, "image")) ==> r == Err(NoImage)
    ensures rt.getFault(arg, "image").None? && IsObject(Lookup(arg, "image")) && rt.getFault(arg, "ssh_keys").Some? ==>
              r == Err(rt.getFault(arg, "ssh_keys").value)
    ensures rt.getFault(arg, "image").None? && IsObject(Lookup(arg, "image"))
            && rt.getFault(arg, "ssh_keys").None? && !IsObject(Lookup(arg, "ssh_keys")) ==>
              r == Err(NoSshKeys)
    ensures r.Ok? <==> && rt.getFault(arg, "image").None? && IsObject(Lookup(arg, "image"))
                       && rt.getFault(arg, "ssh_keys").None? && IsObject(Lookup(arg, "ssh_keys"))
    ensures r.Ok? ==> r.value == (Lookup(arg, "image"), Lookup(arg, "ssh_keys"))
  {
    var img :- GetObject(rt, arg, "image");
    if !IsObject(img) then Err(NoImage) else
    var ssh :- GetObject(rt, arg, "ssh_keys");
    if !IsObject(ssh) then Err(NoSshKeys) else
    Ok((img, ssh))
  }

  /** The reads behind the scalar part of a creation request, in the order
      the request literal evaluates them, each as the error it raised if it
      failed: the name, region and size of the argument; the id, slug and
      the backups, IPv6 and private-networking flags of `image`; and once
      more the argument's size, for the user data. */
  function HeadReads(rt: Runtime, arg: Value, img: Value): (faults: seq<Option<string>>)
    requires IsObject(arg) && IsObject(img)
    ensures |faults| == 9
  {
    [ ErrorOf(StringField(rt, arg, "name")),
      ErrorOf(StringField(rt, arg, "region")),
      ErrorOf(StringField(rt, arg, "size")),
      ErrorOf(IntField(rt, img, "id")),
      ErrorOf(StringField(rt, img, "slug")),
      ErrorOf(BoolField(rt, img, "backups")),
      ErrorOf(BoolField(rt, img, "ipv6")),
      ErrorOf(BoolField(rt, img, "private_networking")),
      ErrorOf(StringField(rt, arg, "size")) ]
  }

  /** The scalar part of a creation request: the name, region and size from
      the argument; the image id and slug from `image`; the backups, IPv6 and
      private-networking flags also from `image`, not from the argument; and
      the user data from the argument's `size` property, so it always equals
      the size. It is built exactly when every read succeeds; otherwise the
      first read that fails, in evaluation order, throws. No keys yet. */
  function RequestHead(rt: Runtime, arg: Value, img: Value): (r: Result<CreateRequest>)
    requires IsObject(arg) && IsObject(img)
    ensures r.Ok? <==> forall i :: 0 <= i < 9 ==> HeadReads(rt, arg, img)[i].None?
    ensures r.Err? ==> exists i :: 0 <= i < 9
                        && (forall j :: 0 <= j < i ==> HeadReads(rt, arg, img)[j].None?)
                        && HeadReads(rt, arg, img)[i] == Some(r.msg)
    ensures r.Ok? ==>
              && StringField(rt, arg, "name") == Ok(r.value.name)
              && StringField(rt, arg, "region") == Ok(r.value.region)
              && StringField(rt, arg, "size") == Ok(r.value.size)
              && IntField(rt, img, "id") == Ok(r.value.image.id)
              && StringField(rt, img, "slug") == Ok(r.value.image.slug)
              && BoolField(rt, img, "backups") == Ok(r.value.backups)
              && BoolField(rt, img, "ipv6") == Ok(r.value.ipv6)
              && BoolField(rt, img, "private_networking") == Ok(r.value.privateNetworking)
              && r.value.userData == r.value.size
              && r.value.sshKeys == []
  {
    match FirstFault(HeadReads(rt, arg, img))
    case Some(e) => Err(e)
    case None =>
      var faults := HeadReads(rt, arg, img);
      assert faults[0].None? && faults[1].None? && faults[2].None? && faults[3].None?;
      assert faults[4].None? && faults[5].None? && faults[6].None? && faults[7].None?;
      // `size` is read a second time for the user data; that read succeeded above.
      Ok(CreateRequest(
        StringField(rt, arg, "name").value,
        StringField(rt, arg, "region").value,
        StringField(rt, arg, "size").value,
        CreateImage(IntField(rt, img, "id").value, StringField(rt, img, "slug").value),
        BoolField(rt, img, "backups").value,
        BoolField(rt, img, "ipv6").value,
        BoolField(rt, img, "private_networking").value,
        StringField(rt, arg, "size").value,
        []))
  }

  /** One entry of `ssh_keys`: it is built exactly when the entry can be
      read, is an object, and its `id` and `fingerprint` read; otherwise the
      first failure throws, a non-object entry with its own message. */
  function SshKeyEntry(rt: Runtime, ssh: Value, k: string): (r: Result<SshKeyRef>)
    requires IsObject(ssh)
    ensures r.Ok? <==> && rt.getFault(ssh, k).None? && IsObject(Lookup(ssh, k))
                       && IntField(rt, Lookup(ssh, k), "id").Ok?
                       && StringField(rt, Lookup(ssh, k), "fingerprint").Ok?
    ensures rt.getFault(ssh, k).Some? ==> r == Err(rt.getFault(ssh, k).value)
    ensures rt.getFault(ssh, k).None? && !IsObject(Lookup(ssh, k)) ==> r == Err(SshKeyNotObject)
    ensures rt.getFault(ssh, k).None? && IsObject(Lookup(ssh, k))
            && IntField(rt, Lookup(ssh, k), "id").Err? ==>
              r == Err(IntField(rt, Lookup(ssh, k), "id").msg)
    ensures rt.getFault(ssh, k).None? && IsObject(Lookup(ssh, k))
            && IntField(rt, Lookup(ssh, k), "id").Ok?
            && StringField(rt, Lookup(ssh, k), "fingerprint").Err? ==>
              r == Err(StringField(rt, Lookup(ssh, k), "fingerprint").msg)
    ensures r.Ok? ==> IntField(rt, Lookup(ssh, k), "id") == Ok(r.value.id)
                      && StringField(rt, Lookup(ssh, k), "fingerprint") == Ok(r.value.fingerprint)
  {
    var entry :- GetObject(rt, ssh, k);
    if !IsObject(entry) then
      Err(SshKeyNotObject)
    else
      var id :- IntField(rt, entry, "id");
      var fingerprint :- StringField(rt, entry, "fingerprint");
      Ok(SshKeyRef(id, fingerprint))
  }

  /** The creation request for an object argument: the checked targets, the
      scalar fields, and then exactly one key per key of `ssh_keys`, in key
      order, each read from the entry under that key. It is built exactly
      when all of these succeed; otherwise the first failure, in that order
      and in key order among the entries, throws. */
  function BuildRequest(rt: Runtime, arg: Value): (r: Result<CreateRequest>)
    requires IsObject(arg)
    ensures CreateTargets(rt, arg).Err? ==> r == Err(CreateTargets(rt, arg).msg)
    ensures r.Ok? <==>
              && CreateTargets(rt, arg).Ok?
              && var (img, ssh) := CreateTargets(rt, arg).value;
              && RequestHead(rt, arg, img).Ok?
              && forall i :: 0 <= i < |Keys(ssh)| ==> SshKeyEntry(rt, ssh, Keys(ssh)[i]).Ok?
    ensures CreateTargets(rt, arg).Ok? && RequestHead(rt, arg, CreateTargets(rt, arg).value.0).Err? ==>
              r == Err(RequestHead(rt, arg, CreateTargets(rt, arg).value.0).msg)
    ensures r.Ok? ==>
              && CreateTargets(rt, arg).Ok?
              && var (img, ssh) := CreateTargets(rt, arg).value;
              && RequestHead(rt, arg, img) == Ok(r.value.(sshKeys := []))
              && |r.value.sshKeys| == |Keys(ssh)|
              && forall i :: 0 <= i < |Keys(ssh)| ==> SshKeyEntry(rt, ssh, Keys(ssh)[i]) == Ok(r.value.sshKeys[i])
    ensures r.Err? && CreateTargets(rt, arg).Ok? && RequestHead(rt, arg, CreateTargets(rt, arg).value.0).Ok? ==>
              var ssh := CreateTargets(rt, arg).value.1;
              exists i :: 0 <= i < |Keys(ssh)|
                && (forall j :: 0 <= j < i ==> SshKeyEntry(rt, ssh, Keys(ssh)[j]).Ok?)
                && SshKeyEntry(rt, ssh, Keys(ssh)[i]) == Err(r.msg)
  {
    var targets :- CreateTargets(rt, arg);
    var img := targets.0;
    var ssh := targets.1;
    var head :- RequestHead(rt, arg, img);
    var keys :- MapEach((k: string) => SshKeyEntry(rt, ssh, k), Keys(ssh));
    Ok(head.(sshKeys := keys))
  }

  /** `create(spec)`: checks, in this order, that the argument, its `image`
      and its `ssh_keys` are objects, each failure throwing its own message
      before the client is called; then builds the request, creates the
      droplet once and projects it. A client error is thrown verbatim. */
  function Create(rt: Runtime, c: Client, arg: Value): (reply: Reply<ClientCall>)
    ensures !IsObject(arg) ==> reply == Reply(Err(ArgNotObject), [])
    ensures IsObject(arg) && rt.getFault(arg, "image").None? && !IsObject(Lookup(arg, "image")) ==>
              reply == Reply(Err(NoImage), [])
    ensures IsObject(arg) && rt.getFault(arg, "image").None? && IsObject(Lookup(arg, "image"))
            && rt.getFault(arg, "ssh_keys").None? && !IsObject(Lookup(arg, "ssh_keys")) ==>
              reply == Reply(Err(NoSshKeys), [])
    ensures reply.calls == [] <==> !IsObject(arg) || BuildRequest(rt, arg).Err?
    ensures reply.calls == [] ==> reply.result.Err?
    ensures IsObject(arg) && reply.calls == [] ==> reply.result == Err(BuildRequest(rt, arg).msg)
    ensures reply.calls != [] ==>
              var req := BuildRequest(rt, arg).value;
              && reply.calls == [CreateCall(req)]
              && (c.create(req).Err? ==> reply.result == Err(c.create(req).msg))
              && (c.create(req).Ok? ==> reply.result == DropletToVM(rt, c.create(req).value))
  {
    if !IsObject(arg) then
      Reply(Err(ArgNotObject), [])
    else
      match BuildRequest(rt, arg)
      case Err(e) => Reply(Err(e), [])
      case Ok(req) =>
        var result := match c.create(req)
          case Err(e) => Err(e)
          case Ok(d) => DropletToVM(rt, d);
        Reply(result, [CreateCall(req)])
  }

  /** When the head of the request builds and every entry of `ssh_keys`
      before key number `i` builds, an entry under that key that is not an
      object makes `create` throw `'ssh_keys' field must be an object`
      without calling the client, whatever the later entries hold. */
  lemma CreateRejectsNonObjectKey(rt: Runtime, c: Client, arg: Value, i: nat)
    requires IsObject(arg) && CreateTargets(rt, arg).Ok?
    requires RequestHead(rt, arg, Lookup(arg, "image")).Ok?
    requires i < |Keys(Lookup(arg, "ssh_keys"))|
    requires forall j :: 0 <= j < i ==>
               SshKeyEntry(rt, Lookup(arg, "ssh_keys"), Keys(Lookup(arg, "ssh_keys"))[j]).Ok?
    requires rt.getFault(Lookup(arg, "ssh_keys"), Keys(Lookup(arg, "ssh_keys"))[i]).None?
    requires !IsObject(Lookup(Lookup(arg, "ssh_keys"), Keys(Lookup(arg, "ssh_keys"))[i]))
    ensures Create(rt, c, arg) == Reply(Err(SshKeyNotObject), [])
  {
    var ssh := Lookup(arg, "ssh_keys");
    var keys := Keys(ssh);
    assert SshKeyEntry(rt, ssh, keys[i]) == Err(SshKeyNotObject);
    var r := BuildRequest(rt, arg);
    assert r.Err?;
    var i' :| 0 <= i' < |keys|
              && (forall j :: 0 <= j < i' ==> SshKeyEntry(rt, ssh, keys[j]).Ok?)
              && SshKeyEntry(rt, ssh, keys[i']) == Err(r.msg);
    assert r.msg == SshKeyNotObject;
  }

  // ---------------------------------------------------------------------
  // Dispatch

  /** The method table consists of the four working methods and the eight
      placeholders, with no name in both. */
  lemma MethodTableSplits()
    ensures forall n :: n in MethodNames <==>
              n in Unimplemented || n == "list" || n == "get" || n == "create" || n == "delete"
    ensures "list" !in Unimplemented && "get" !in Unimplemented
    ensures "create" !in Unimplemented && "delete" !in Unimplemented
  {
  }

  /** Calls the method bound under `name` with first argument `arg`. The
      eight placeholders throw `not implemented!` without calling the
      client; the others answer as their definitions say. */
  method Invoke(rt: Runtime, c: Client, name: string, arg: Value) returns (reply: Reply<ClientCall>)
    requires name in MethodNames
    ensures name in Unimplemented ==> reply == Reply(Err(NotImplemented), [])
    ensures name == "list" ==> reply == ListReply(rt, c)
    ensures name == "get" ==> reply == Get(rt, c, arg)
    ensures name == "create" ==> reply == Create(rt, c, arg)
    ensures name == "delete" ==> reply == Delete(rt, c, arg)
  {
    if name == "list" {
      reply := List(rt, c);
    } else if name == "get" {
      reply := Get(rt, c, arg);
    } else if name == "create" {
      reply := Create(rt, c, arg);
    } else if name == "delete" {
      reply := Delete(rt, c, arg);
    } else {
      reply := Reply(Err(NotImplemented), []);
    }
  }
}
