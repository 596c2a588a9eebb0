/** Associating the models that an upstream offers with the model catalog. */
module ModelAssociation {
  import opened Text
  import opened Lists

  /** `extra` stands for the fields that association does not look at. */
  datatype Route = Route(kind: string, source: string, upstream: string, enabled: bool, priority: int, weight: int,
                         extra: nat)

  datatype Model = Model(slug: string, sort: int, routes: seq<Route>, custom: bool, extra: nat)

  const AGGREGATE := "aggregate_api"

  // ----- the requests -----

  /** Bytes of a character in UTF-8. */
  function Width(c: char): nat {
    if c as int < 0x80 then 1 else if c as int < 0x800 then 2 else if c as int < 0x1_0000 then 3 else 4
  }

  function Utf8Length(s: string): nat {
    if s == "" then 0 else Width(s[0]) + Utf8Length(s[1..])
  }

  predicate IsControl(c: char) {
    c < ' ' || 0x7F <= c as int <= 0x9F
  }

  function StripModels(value: string, gemini: bool): string {
    if gemini && "models/" <= value then value[7..] else value
  }

  /** `normalize_fetched_model_id`. */
  function ModelId(raw: string, gemini: bool): Option<string> {
    var value := StripModels(Trim(raw), gemini);
    if value == "" || Utf8Length(value) > 200 || exists c :: c in value && (IsControl(c) || IsSpace(c)) then None
    else Some(value)
  }

  function IdOf(gemini: bool): string -> Option<string> {
    raw => ModelId(raw, gemini)
  }

  /** The ids of a list of names; one bad name spoils it. */
  function ModelIds(raws: seq<string>, id: string -> Option<string>): Option<seq<string>> {
    if raws == [] then Some([])
    else
      var init, last := ModelIds(raws[..|raws| - 1], id), id(raws[|raws| - 1]);
      if init.None? || last.None? then None else Some(init.value + [last.value])
  }

  /** The requests that a list of names makes: the first of every id up to case. */
  function RequestsOf(raws: seq<string>, gemini: bool): seq<string>
    requires ModelIds(raws, IdOf(gemini)).Some?
  {
    KeepFirst(ModelIds(raws, IdOf(gemini)).value, Lower)
  }

  // ----- one request -----

  predicate Named(model: Model, request: string) {
    EqIgnoreCase(model.slug, request)
  }

  predicate RouteFrom(route: Route, api: string) {
    route.kind == AGGREGATE && route.source == api
  }

  predicate HasRoute(model: Model, api: string, request: string) {
    exists i :: 0 <= i < |model.routes| && RouteFrom(model.routes[i], api)
      && EqIgnoreCase(model.routes[i].upstream, request)
  }

  /** Priority and weight of the first route of the api. */
  function Inherited(routes: seq<Route>, api: string): (int, int) {
    if routes == [] then (0, 1)
    else if RouteFrom(routes[0], api) then (routes[0].priority, routes[0].weight)
    else Inherited(routes[1..], api)
  }

  function NewRoute(routes: seq<Route>, api: string, request: string): Route {
    var (priority, weight) := Inherited(routes, api);
    Route(AGGREGATE, api, request, true, priority, if weight > 1 then weight else 1, 0)
  }

  /** The model with the request's route, which it may have already. */
  function Associated(model: Model, api: string, request: string): Model {
    if HasRoute(model, api, request) then model
    else model.(routes := model.routes + [NewRoute(model.routes, api, request)])
  }

  function Created(api: string, request: string, sort: int): Model {
    Model(request, sort, [Route(AGGREGATE, api, request, true, 0, 1, 0)], true, 0)
  }

  function Find(models: seq<Model>, slug: string): (k: Option<nat>)
    ensures k.Some? ==> k.value < |models| && Named(models[k.value], slug)
    ensures k.None? ==> forall i :: 0 <= i < |models| ==> !Named(models[i], slug)
  {
    if models == [] then None
    else if Named(models[0], slug) then Some(0)
    else
      match Find(models[1..], slug)
      case Some(k) => Some(k + 1)
      case None => None
  }

  /** `write_model`, for a slug that the table treats without regard to case. */
  function Upsert(models: seq<Model>, model: Model): seq<Model> {
    match Find(models, model.slug)
    case Some(k) => models[k := model]
    case None => models + [model]
  }

  function Upserts(models: seq<Model>, inputs: seq<Model>): seq<Model> {
    if inputs == [] then models else Upsert(Upserts(models, inputs[..|inputs| - 1]), inputs[|inputs| - 1])
  }

  lemma UpsertsExtends(models: seq<Model>, inputs: seq<Model>, next: Model)
    ensures Upserts(models, inputs + [next]) == Upsert(Upserts(models, inputs), next)
  {
    assert (inputs + [next])[..|inputs|] == inputs;
  }

  function LargestSort(models: seq<Model>): int
    requires models != []
  {
    if |models| == 1 then models[0].sort
    else
      var rest := LargestSort(models[1..]);
      if models[0].sort > rest then models[0].sort else rest
  }

  function NextSort(models: seq<Model>): int {
    (if models == [] then 0 else LargestSort(models)) + 1
  }

  // ----- the outcome -----

  /** What a model becomes: at most one of the requests names it. */
  function Touched(model: Model, api: string, requests: seq<string>): Model {
    if requests == [] then model
    else
      var n := |requests| - 1;
      if Named(model, requests[n]) then Associated(model, api, requests[n]) else Touched(model, api, requests[..n])
  }

  function AllTouched(models: seq<Model>, api: string, requests: seq<string>): seq<Model> {
    seq(|models|, i requires 0 <= i < |models| => Touched(models[i], api, requests))
  }

  /** The models made for requests that no model of the catalog is named by. */
  function AllCreated(models: seq<Model>, api: string, requests: seq<string>): seq<Model> {
    if requests == [] then []
    else
      var n := |requests| - 1;
      AllCreated(models, api, requests[..n])
      + (if Find(models, requests[n]).None? then [Created(api, requests[n], NextSort(models) + n)] else [])
  }

  datatype Reply = Reply(created: seq<string>, added: seq<string>, present: seq<string>)

  /** The three lists that the call answers with. */
  function Answer(models: seq<Model>, api: string, requests: seq<string>): Reply {
    if requests == [] then Reply([], [], [])
    else
      var n := |requests| - 1;
      var before := Answer(models, api, requests[..n]);
      match Find(models, requests[n])
      case None => before.(created := before.created + [requests[n]], added := before.added + [requests[n]])
      case Some(k) =>
        if HasRoute(models[k], api, requests[n]) then before.(present := before.present + [models[k].slug])
        else before.(added := before.added + [models[k].slug])
  }

  ghost predicate UniqueSlugs(models: seq<Model>) {
    forall i, j :: 0 <= i < j < |models| ==> !Named(models[i], models[j].slug)
  }

  ghost predicate DistinctRequests(requests: seq<string>) {
    forall i, j :: 0 <= i < j < |requests| ==> !EqIgnoreCase(requests[i], requests[j])
  }

  // ----- the loop and the transaction amount to that outcome -----

  /** The catalog with the first `n` requests taken into account. */
  function Outcome(models: seq<Model>, api: string, requests: seq<string>): seq<Model> {
    AllTouched(models, api, requests) + AllCreated(models, api, requests)
  }

  lemma {:induction false} TouchedKeepsSlug(model: Model, api: string, requests: seq<string>)
    ensures Touched(model, api, requests).slug == model.slug
  {
    if requests != [] {
      TouchedKeepsSlug(model, api, requests[..|requests| - 1]);
    }
  }

  lemma {:induction false} Untouched(model: Model, api: string, requests: seq<string>)
    requires forall j :: 0 <= j < |requests| ==> !Named(model, requests[j])
    ensures Touched(model, api, requests) == model
  {
    if requests != [] {
      Untouched(model, api, requests[..|requests| - 1]);
    }
  }

  lemma {:induction false} CreatedSlugs(models: seq<Model>, api: string, requests: seq<string>)
    ensures forall m :: m in AllCreated(models, api, requests) ==> m.slug in requests && Find(models, m.slug).None?
  {
    if requests != [] {
      var n := |requests| - 1;
      CreatedSlugs(models, api, requests[..n]);
      assert forall r :: r in requests[..n] ==> r in requests;
    }
  }

  lemma {:induction false} FindFirst(models: seq<Model>, slug: string, k: nat)
    requires k < |models| && Named(models[k], slug) && forall i :: 0 <= i < k ==> !Named(models[i], slug)
    ensures Find(models, slug) == Some(k)
  {
    if k > 0 {
      FindFirst(models[1..], slug, k - 1);
    }
  }

  lemma FindNone(models: seq<Model>, slug: string)
    requires forall i :: 0 <= i < |models| ==> !Named(models[i], slug)
    ensures Find(models, slug) == None
  {
  }

  lemma TouchedExtends(models: seq<Model>, api: string, requests: seq<string>, n: nat)
    requires n < |requests|
    ensures forall i :: 0 <= i < |models| && Named(models[i], requests[n]) ==>
              Touched(models[i], api, requests[..n + 1]) == Associated(models[i], api, requests[n])
    ensures forall i :: 0 <= i < |models| && !Named(models[i], requests[n]) ==>
              Touched(models[i], api, requests[..n + 1]) == Touched(models[i], api, requests[..n])
  {
    assert requests[..n + 1][..n] == requests[..n];
  }

  lemma CreatedExtends(models: seq<Model>, api: string, requests: seq<string>, n: nat)
    requires n < |requests|
    ensures AllCreated(models, api, requests[..n + 1])
         == AllCreated(models, api, requests[..n])
            + (if Find(models, requests[n]).None? then [Created(api, requests[n], NextSort(models) + n)] else [])
  {
    assert requests[..n + 1][..n] == requests[..n];
  }

  lemma UpsertInPlace(head: seq<Model>, tail: seq<Model>, model: Model, k: nat)
    requires k < |head| && Named(head[k], model.slug) && forall i :: 0 <= i < k ==> !Named(head[i], model.slug)
    ensures Upsert(head + tail, model) == head[k := model] + tail
  {
    FindFirst(head + tail, model.slug, k);
  }

  lemma OnlyNamed(models: seq<Model>, request: string, k: nat)
    requires UniqueSlugs(models) && k < |models| && Named(models[k], request)
    ensures forall i :: 0 <= i < |models| && i != k ==> !Named(models[i], request)
  {
    forall i | 0 <= i < |models| && i != k ensures !Named(models[i], request) {
      assert i < k ==> !Named(models[i], models[k].slug);
      assert k < i ==> !Named(models[k], models[i].slug);
    }
  }

  /** The request before which no other one named the model. */
  lemma NotYetTouched(model: Model, api: string, requests: seq<string>, n: nat)
    requires DistinctRequests(requests) && n < |requests| && Named(model, requests[n])
    ensures Touched(model, api, requests[..n]) == model
  {
    forall j | 0 <= j < n ensures !Named(model, requests[..n][j]) {
      assert !EqIgnoreCase(requests[j], requests[n]);
    }
    Untouched(model, api, requests[..n]);
  }

  /** A request that names a model changes that model only. */
  lemma KnownStep(models: seq<Model>, api: string, requests: seq<string>, n: nat, k: nat)
    requires UniqueSlugs(models) && DistinctRequests(requests) && n < |requests| && Find(models, requests[n]) == Some(k)
    ensures AllTouched(models, api, requests[..n])[k] == models[k]
    ensures AllTouched(models, api, requests[..n + 1])
         == AllTouched(models, api, requests[..n])[k := Associated(models[k], api, requests[n])]
    ensures AllCreated(models, api, requests[..n + 1]) == AllCreated(models, api, requests[..n])
  {
    OnlyNamed(models, requests[n], k);
    NotYetTouched(models[k], api, requests, n);
    TouchedExtends(models, api, requests, n);
    CreatedExtends(models, api, requests, n);
  }

  lemma KnownUpsert(models: seq<Model>, api: string, requests: seq<string>, n: nat, k: nat)
    requires UniqueSlugs(models) && DistinctRequests(requests) && n < |requests| && Find(models, requests[n]) == Some(k)
    ensures Upsert(Outcome(models, api, requests[..n]), Associated(models[k], api, requests[n]))
         == Outcome(models, api, requests[..n + 1])
  {
    var head := AllTouched(models, api, requests[..n]);
    KnownStep(models, api, requests, n, k);
    OnlyNamed(models, requests[n], k);
    forall i | 0 <= i < |models| ensures head[i].slug == models[i].slug {
      TouchedKeepsSlug(models[i], api, requests[..n]);
    }
    UpsertInPlace(head, AllCreated(models, api, requests[..n]), Associated(models[k], api, requests[n]), k);
  }

  /** A request that names no model touches none. */
  lemma NewStep(models: seq<Model>, api: string, requests: seq<string>, n: nat)
    requires n < |requests| && Find(models, requests[n]) == None
    ensures AllTouched(models, api, requests[..n + 1]) == AllTouched(models, api, requests[..n])
  {
    TouchedExtends(models, api, requests, n);
  }

  lemma NotCreatedYet(models: seq<Model>, api: string, requests: seq<string>, n: nat)
    requires DistinctRequests(requests) && n < |requests|
    ensures forall m :: m in AllCreated(models, api, requests[..n]) ==> !Named(m, requests[n])
  {
    CreatedSlugs(models, api, requests[..n]);
    forall m | m in AllCreated(models, api, requests[..n]) ensures !Named(m, requests[n]) {
      var j :| 0 <= j < n && requests[j] == m.slug;
      assert !EqIgnoreCase(requests[j], requests[n]);
    }
  }

  /** A request that names no model adds one. */
  lemma NewUpsert(models: seq<Model>, api: string, requests: seq<string>, n: nat)
    requires DistinctRequests(requests) && n < |requests| && Find(models, requests[n]) == None
    ensures Upsert(Outcome(models, api, requests[..n]), Created(api, requests[n], NextSort(models) + n))
         == Outcome(models, api, requests[..n + 1])
  {
    var head, tail := AllTouched(models, api, requests[..n]), AllCreated(models, api, requests[..n]);
    NewStep(models, api, requests, n);
    CreatedExtends(models, api, requests, n);
    NotCreatedYet(models, api, requests, n);
    forall i | 0 <= i < |head| ensures !Named(head[i], requests[n]) {
      TouchedKeepsSlug(models[i], api, requests[..n]);
    }
    forall i | 0 <= i < |head + tail| ensures !Named((head + tail)[i], requests[n]) {
      assert i >= |head| ==> (head + tail)[i] in tail;
    }
    FindNone(head + tail, requests[n]);
  }

  // ----- the operation -----

  datatype Result = Done(reply: Reply) | InvalidModelId | StorageFailed

  class ModelCatalog {
    var models: seq<Model>

    constructor (models: seq<Model>)
      ensures this.models == models
    {
      this.models := models;
    }

    /** `upsert_managed_models_v2`: all inputs in one transaction. */
    method UpsertAll(inputs: seq<Model>, works: bool)
      modifies this
      ensures models == if works then Upserts(old(models), inputs) else old(models)
    {
      var written := models;
      for i := 0 to |inputs|
        invariant written == Upserts(models, inputs[..i]) && models == old(models)
      {
        assert inputs[..i + 1][..i] == inputs[..i];
        written := Upsert(written, inputs[i]);
      }
      assert inputs[..|inputs|] == inputs;
      if works {
        models := written;
      }
    }

    /** `associate_aggregate_api_models` for an api that exists. `works` says whether the transaction
        succeeds. */
    method Associate(api: string, raws: seq<string>, gemini: bool, works: bool) returns (r: Result)
      requires UniqueSlugs(models)
      modifies this
      ensures r.InvalidModelId? <==> ModelIds(raws, IdOf(gemini)).None?
      ensures !r.Done? ==> models == old(models)
      ensures r.StorageFailed? ==> !works
      ensures r.Done? ==> models == Outcome(old(models), api, RequestsOf(raws, gemini))
      ensures r.Done? ==> r.reply == Answer(old(models), api, RequestsOf(raws, gemini))
    {
      var requests := Requests(raws, IdOf(gemini));
      if requests.None? {
        return InvalidModelId;
      }
      ghost var ids := ModelIds(raws, IdOf(gemini)).value;
      KeepFirstIsDistinct(ids, Lower);
      var inputs, reply := Plan(models, api, requests.value);
      if inputs != [] {
        UpsertAll(inputs, works);
        if !works {
          return StorageFailed;
        }
      }
      r := Done(reply);
    }
  }

  /** The first loop: the ids of the names, the first of each kept. */
  method Requests(raws: seq<string>, id: string -> Option<string>) returns (requests: Option<seq<string>>)
    ensures requests.None? <==> ModelIds(raws, id).None?
    ensures requests.Some? ==> requests.value == KeepFirst(ModelIds(raws, id).value, Lower)
  {
    var kept, seen := [], {};
    ghost var ids := [];
    for i := 0 to |raws|
      invariant ModelIds(raws[..i], id) == Some(ids)
      invariant kept == KeepFirst(ids, Lower) && SeenKeys(ids, Lower, seen)
    {
      assert raws[..i + 1][..i] == raws[..i];
      var model := id(raws[i]);
      if model.None? {
        PrefixSpoils(raws, id, i + 1);
        return None;
      }
      ghost var longer := ids + [model.value];
      assert longer[..|ids|] == ids && longer[..|ids| + 1] == longer;
      KeepFirstStep(longer, Lower, |ids|, seen);
      var key := Lower(model.value);
      if key != "" && key !in seen {
        seen := seen + {key};
        kept := kept + [model.value];
      }
      ids := longer;
    }
    assert raws[..|raws|] == raws;
    requests := Some(kept);
  }

  lemma {:induction false} PrefixSpoils(raws: seq<string>, id: string -> Option<string>, n: nat)
    requires n <= |raws| && ModelIds(raws[..n], id).None?
    ensures ModelIds(raws, id).None?
    decreases |raws|
  {
    if n == |raws| {
      assert raws[..n] == raws;
    } else {
      var init := raws[..|raws| - 1];
      assert init[..n] == raws[..n];
      PrefixSpoils(init, id, n);
    }
  }

  /** The second loop, over models that it changes in place. */
  method Plan(catalog: seq<Model>, api: string, requests: seq<string>) returns (inputs: seq<Model>, reply: Reply)
    requires UniqueSlugs(catalog) && DistinctRequests(requests)
    ensures Upserts(catalog, inputs) == Outcome(catalog, api, requests)
    ensures reply == Answer(catalog, api, requests)
  {
    var models, next := catalog, NextSort(catalog);
    inputs, reply := [], Reply([], [], []);
    assert AllTouched(catalog, api, []) == catalog;
    for n := 0 to |requests|
      invariant models == AllTouched(catalog, api, requests[..n])
      invariant Upserts(catalog, inputs) == Outcome(catalog, api, requests[..n])
      invariant reply == Answer(catalog, api, requests[..n])
    {
      var request := requests[n];
      assert requests[..n + 1][..n] == requests[..n];
      SameFind(catalog, api, requests[..n], request);
      var found := Find(models, request);
      if found.Some? {
        KnownStep(catalog, api, requests, n, found.value);
        KnownUpsert(catalog, api, requests, n, found.value);
        var model := models[found.value];
        if HasRoute(model, api, request) {
          AssociatedTwice(models, found.value, api, request);
          reply := reply.(present := reply.present + [model.slug]);
        } else {
          model := model.(routes := model.routes + [NewRoute(model.routes, api, request)]);
          models := models[found.value := model];
          UpsertsExtends(catalog, inputs, model);
          inputs := inputs + [model];
          reply := reply.(added := reply.added + [model.slug]);
        }
      } else {
        NewStep(catalog, api, requests, n);
        NewUpsert(catalog, api, requests, n);
        UpsertsExtends(catalog, inputs, Created(api, request, next + n));
        inputs := inputs + [Created(api, request, next + n)];
        reply := reply.(created := reply.created + [request], added := reply.added + [request]);
      }
    }
    assert requests[..|requests|] == requests;
  }

  lemma SameFind(models: seq<Model>, api: string, requests: seq<string>, slug: string)
    ensures Find(AllTouched(models, api, requests), slug) == Find(models, slug)
  {
    var touched, k := AllTouched(models, api, requests), Find(models, slug);
    forall i | 0 <= i < |models| ensures Named(touched[i], slug) == Named(models[i], slug) {
      TouchedKeepsSlug(models[i], api, requests);
    }
    if k.Some? {
      FindIsFirst(models, slug);
      FindFirst(touched, slug, k.value);
    }
  }

  lemma {:induction false} FindIsFirst(models: seq<Model>, slug: string)
    ensures Find(models, slug).Some? ==> forall i :: 0 <= i < Find(models, slug).value ==> !Named(models[i], slug)
  {
    if models != [] && !Named(models[0], slug) {
      FindIsFirst(models[1..], slug);
    }
  }

  lemma AssociatedTwice(models: seq<Model>, k: nat, api: string, request: string)
    requires k < |models| && HasRoute(models[k], api, request)
    ensures models[k := Associated(models[k], api, request)] == models
  {
  }
}
