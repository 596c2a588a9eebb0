/** What association keeps, adds and answers, for every catalog and every list of requests. */
module AssociationLaws {
  import opened Text
  import opened Lists
  import opened ModelAssociation

  // ----- nothing is lost -----

  /** The model as it was, with at most one more route, which is of the api. */
  ghost predicate OnlyGains(before: Model, after: Model, api: string) {
    && after == before.(routes := after.routes)
    && before.routes <= after.routes && |after.routes| <= |before.routes| + 1
    && (|after.routes| > |before.routes| ==> RouteFrom(after.routes[|before.routes|], api))
  }

  lemma AssociatedGains(model: Model, api: string, request: string)
    ensures OnlyGains(model, Associated(model, api, request), api)
  {
  }

  lemma {:induction false} TouchedGains(model: Model, api: string, requests: seq<string>)
    ensures OnlyGains(model, Touched(model, api, requests), api)
  {
    if requests != [] {
      var n := |requests| - 1;
      AssociatedGains(model, api, requests[n]);
      TouchedGains(model, api, requests[..n]);
    }
  }

  /** Every model keeps its fields and its routes, in their places; the new models come after them. */
  lemma NothingIsLost(models: seq<Model>, api: string, requests: seq<string>, i: nat)
    requires i < |models|
    ensures |Outcome(models, api, requests)| >= |models|
    ensures OnlyGains(models[i], Outcome(models, api, requests)[i], api)
  {
    TouchedGains(models[i], api, requests);
  }

  // ----- what is added -----

  ghost predicate IsFirstRoute(routes: seq<Route>, api: string, k: nat)
    requires k < |routes|
  {
    RouteFrom(routes[k], api) && forall j :: 0 <= j < k ==> !RouteFrom(routes[j], api)
  }

  /** An enabled route of the api to the request, with the priority and at least the weight of the api's first
      route of the model, and with 0 and 1 if it has none. */
  ghost predicate Serves(route: Route, routes: seq<Route>, api: string, request: string) {
    && route.kind == "aggregate_api" && route.source == api && route.upstream == request && route.enabled
    && (forall k :: 0 <= k < |routes| && IsFirstRoute(routes, api, k) ==>
          route.priority == routes[k].priority && route.weight == if routes[k].weight < 1 then 1 else routes[k].weight)
    && ((forall k :: 0 <= k < |routes| ==> !RouteFrom(routes[k], api)) ==> route.priority == 0 && route.weight == 1)
  }

  lemma {:induction false} InheritedFirst(routes: seq<Route>, api: string, k: nat)
    requires k < |routes| && IsFirstRoute(routes, api, k)
    ensures Inherited(routes, api) == (routes[k].priority, routes[k].weight)
  {
    if k > 0 {
      InheritedFirst(routes[1..], api, k - 1);
    }
  }

  lemma {:induction false} InheritedNone(routes: seq<Route>, api: string)
    requires forall k :: 0 <= k < |routes| ==> !RouteFrom(routes[k], api)
    ensures Inherited(routes, api) == (0, 1)
  {
    if routes != [] {
      InheritedNone(routes[1..], api);
    }
  }

  lemma NewRouteServes(routes: seq<Route>, api: string, request: string)
    ensures Serves(NewRoute(routes, api, request), routes, api, request)
  {
    forall k | 0 <= k < |routes| && IsFirstRoute(routes, api, k)
      ensures Inherited(routes, api) == (routes[k].priority, routes[k].weight)
    {
      InheritedFirst(routes, api, k);
    }
    if forall k :: 0 <= k < |routes| ==> !RouteFrom(routes[k], api) {
      InheritedNone(routes, api);
    }
  }

  lemma {:induction false} TouchedServes(model: Model, api: string, requests: seq<string>) returns (request: string)
    requires |Touched(model, api, requests).routes| > |model.routes|
    ensures request in requests && Named(model, request) && !HasRoute(model, api, request)
    ensures Serves(Touched(model, api, requests).routes[|model.routes|], model.routes, api, request)
  {
    var n := |requests| - 1;
    if Named(model, requests[n]) {
      request := requests[n];
      NewRouteServes(model.routes, api, request);
    } else {
      request := TouchedServes(model, api, requests[..n]);
    }
  }

  /** A model that gains a route is named by a request that it had no route for, and the route serves that. */
  lemma AddedRouteServes(models: seq<Model>, api: string, requests: seq<string>, i: nat) returns (request: string)
    requires i < |models| && |Outcome(models, api, requests)[i].routes| > |models[i].routes|
    ensures request in requests && Named(models[i], request) && !HasRoute(models[i], api, request)
    ensures Serves(Outcome(models, api, requests)[i].routes[|models[i].routes|], models[i].routes, api, request)
  {
    request := TouchedServes(models[i], api, requests);
  }

  /** A request that names no model makes one: a custom model of that slug with one enabled route, to the request. */
  lemma CreatedServes(models: seq<Model>, api: string, requests: seq<string>, j: nat)
    requires j < |requests| && Find(models, requests[j]).None?
    ensures exists m :: m in Outcome(models, api, requests) && m.slug == requests[j] && m.custom
                        && m.routes == [Route("aggregate_api", api, requests[j], true, 0, 1, 0)]
  {
    var m := CreatedModel(models, api, requests, j);
    assert m in Outcome(models, api, requests);
  }

  lemma {:induction false} CreatedModel(models: seq<Model>, api: string, requests: seq<string>, j: nat)
    returns (m: Model)
    requires j < |requests| && Find(models, requests[j]).None?
    ensures m in AllCreated(models, api, requests) && m.slug == requests[j] && m.custom
            && m.routes == [Route("aggregate_api", api, requests[j], true, 0, 1, 0)]
  {
    var n := |requests| - 1;
    if j == n {
      m := Created(api, requests[n], NextSort(models) + n);
    } else {
      m := CreatedModel(models, api, requests[..n], j);
    }
  }

  // ----- one route for each added request -----

  function Routes(models: seq<Model>): nat {
    if models == [] then 0 else Routes(models[..|models| - 1]) + |models[|models| - 1].routes|
  }

  lemma {:induction false} RoutesConcat(a: seq<Model>, b: seq<Model>)
    ensures Routes(a + b) == Routes(a) + Routes(b)
  {
    if b == [] {
      assert a + b == a;
    } else {
      assert (a + b)[..|a + b| - 1] == a + b[..|b| - 1];
      RoutesConcat(a, b[..|b| - 1]);
    }
  }

  lemma {:induction false} RoutesUpdate(models: seq<Model>, k: nat, model: Model)
    requires k < |models|
    ensures Routes(models[k := model]) == Routes(models) - |models[k].routes| + |model.routes|
  {
    var n := |models| - 1;
    if k < n {
      assert models[k := model][..n] == models[..n][k := model];
      RoutesUpdate(models[..n], k, model);
    } else {
      assert models[k := model][..n] == models[..n];
    }
  }

  /** The routes of the catalog grow by exactly one for each entry of `added_routes`. */
  lemma {:induction false} RoutesAdded(models: seq<Model>, api: string, requests: seq<string>)
    requires UniqueSlugs(models) && DistinctRequests(requests)
    ensures Routes(Outcome(models, api, requests)) == Routes(models) + |Answer(models, api, requests).added|
  {
    if requests == [] {
      assert Outcome(models, api, []) == models;
    } else {
      var n := |requests| - 1;
      var done := requests[..n];
      assert requests[..n + 1] == requests;
      RoutesAdded(models, api, done);
      RoutesConcat(AllTouched(models, api, done), AllCreated(models, api, done));
      RoutesConcat(AllTouched(models, api, requests), AllCreated(models, api, requests));
      match Find(models, requests[n])
      case Some(k) =>
        KnownStep(models, api, requests, n, k);
        RoutesUpdate(AllTouched(models, api, done), k, Associated(models[k], api, requests[n]));
      case None =>
        NewStep(models, api, requests, n);
        var made := Created(api, requests[n], NextSort(models) + n);
        RoutesConcat(AllCreated(models, api, done), [made]);
        assert [made][..0] == [];
    }
  }

  // ----- the answer -----

  predicate Names(list: seq<string>, request: string) {
    exists i :: 0 <= i < |list| && EqIgnoreCase(list[i], request)
  }

  function NewNames(models: seq<Model>, list: seq<string>): seq<string> {
    if list == [] then []
    else
      var n := |list| - 1;
      NewNames(models, list[..n]) + (if Find(models, list[n]).None? then [list[n]] else [])
  }

  lemma NamesExtends(list: seq<string>, name: string, request: string)
    ensures Names(list + [name], request) <==> Names(list, request) || EqIgnoreCase(name, request)
  {
    assert forall i :: 0 <= i < |list| ==> (list + [name])[i] == list[i];
    assert (list + [name])[|list|] == name;
  }

  lemma NewNamesExtends(models: seq<Model>, list: seq<string>, name: string)
    ensures NewNames(models, list + [name])
        == NewNames(models, list) + (if Find(models, name).None? then [name] else [])
  {
    assert (list + [name])[..|list|] == list;
  }

  /** The two lists name the same as the requests, and nothing twice. */
  ghost predicate Partition(added: seq<string>, present: seq<string>, requests: seq<string>) {
    && |added| + |present| == |requests|
    && (forall r :: Names(added, r) || Names(present, r) <==> Names(requests, r))
    && (forall r :: !Names(added, r) || !Names(present, r))
  }

  lemma PartitionExtends(added: seq<string>, present: seq<string>, requests: seq<string>, name: string, request: string)
    requires Partition(added, present, requests) && EqIgnoreCase(name, request)
    requires forall r :: EqIgnoreCase(request, r) ==> !Names(requests, r)
    ensures Partition(added + [name], present, requests + [request])
    ensures Partition(added, present + [name], requests + [request])
  {
    forall r
      ensures Names(added + [name], r) <==> Names(added, r) || EqIgnoreCase(request, r)
      ensures Names(present + [name], r) <==> Names(present, r) || EqIgnoreCase(request, r)
      ensures Names(requests + [request], r) <==> Names(requests, r) || EqIgnoreCase(request, r)
    {
      NamesExtends(added, name, r);
      NamesExtends(present, name, r);
      NamesExtends(requests, request, r);
    }
  }

  lemma SameModel(models: seq<Model>, request: string)
    requires Find(models, request).Some?
    ensures EqIgnoreCase(models[Find(models, request).value].slug, request)
    ensures Find(models, models[Find(models, request).value].slug).Some?
  {
    assert Named(models[Find(models, request).value], models[Find(models, request).value].slug);
  }

  /** The name by which the answer lists a request. */
  function ListedName(models: seq<Model>, request: string): (name: string)
    ensures EqIgnoreCase(name, request) && (Find(models, name).None? <==> Find(models, request).None?)
  {
    var found := Find(models, request);
    if found.Some? then
      SameModel(models, request);
      models[found.value].slug
    else request
  }

  lemma AnswerExtends(models: seq<Model>, api: string, requests: seq<string>)
    requires requests != []
    ensures var n := |requests| - 1;
            var before, r, name := Answer(models, api, requests[..n]), Answer(models, api, requests),
                                   ListedName(models, requests[n]);
            || (r.added == before.added + [name] && r.present == before.present
                && r.created == before.created + (if Find(models, name).None? then [name] else []))
            || (r.added == before.added && r.present == before.present + [name] && r.created == before.created)
  {
  }

  /** Every request is in exactly one of the two lists, by a name that is the same up to case; and the
      created models are the added ones that the catalog did not have. */
  lemma {:induction false} AnswerPartitions(models: seq<Model>, api: string, requests: seq<string>)
    requires DistinctRequests(requests)
    ensures var reply := Answer(models, api, requests);
            Partition(reply.added, reply.present, requests) && reply.created == NewNames(models, reply.added)
  {
    if requests != [] {
      var n := |requests| - 1;
      var before, name := Answer(models, api, requests[..n]), ListedName(models, requests[n]);
      AnswerPartitions(models, api, requests[..n]);
      AnswerExtends(models, api, requests);
      NotNamedYet(requests, n);
      NewNamesExtends(models, before.added, name);
      PartitionExtends(before.added, before.present, requests[..n], name, requests[n]);
      assert requests == requests[..n] + [requests[n]];
    }
  }

  lemma NotNamedYet(requests: seq<string>, n: nat)
    requires DistinctRequests(requests) && n < |requests|
    ensures forall r :: EqIgnoreCase(requests[n], r) ==> !Names(requests[..n], r)
  {
    forall r | EqIgnoreCase(requests[n], r) ensures !Names(requests[..n], r) {
      assert forall i :: 0 <= i < n ==> !EqIgnoreCase(requests[i], requests[n]);
    }
  }

  // ----- sort orders and slugs -----

  lemma {:induction false} SortsBelow(models: seq<Model>)
    requires models != []
    ensures forall i :: 0 <= i < |models| ==> models[i].sort <= LargestSort(models)
  {
    if |models| > 1 {
      SortsBelow(models[1..]);
      assert forall i :: 1 <= i < |models| ==> models[i] == models[1..][i - 1];
    }
  }

  ghost predicate Ascending(made: seq<Model>, low: int, high: int) {
    && (forall i :: 0 <= i < |made| ==> low <= made[i].sort < high)
    && (forall i, j :: 0 <= i < j < |made| ==> made[i].sort < made[j].sort)
  }

  lemma AscendingExtends(made: seq<Model>, low: int, high: int, next: Model)
    requires Ascending(made, low, high) && next.sort == high && low <= high
    ensures Ascending(made, low, high + 1) && Ascending(made + [next], low, high + 1)
  {
  }

  lemma {:induction false} CreatedSorts(models: seq<Model>, api: string, requests: seq<string>)
    ensures Ascending(AllCreated(models, api, requests), NextSort(models), NextSort(models) + |requests|)
  {
    if requests != [] {
      var n := |requests| - 1;
      CreatedSorts(models, api, requests[..n]);
      AscendingExtends(AllCreated(models, api, requests[..n]), NextSort(models), NextSort(models) + n,
                       Created(api, requests[n], NextSort(models) + n));
    }
  }

  /** New models sort after every model that was there, and in the order of their requests. */
  lemma NewModelsSortLast(models: seq<Model>, api: string, requests: seq<string>)
    ensures var made := AllCreated(models, api, requests);
            && (forall i, k :: 0 <= i < |made| && 0 <= k < |models| ==> made[i].sort > models[k].sort)
            && (forall i, j :: 0 <= i < j < |made| ==> made[i].sort < made[j].sort)
  {
    CreatedSorts(models, api, requests);
    if models != [] {
      SortsBelow(models);
    }
  }

  lemma {:induction false} CreatedUnique(models: seq<Model>, api: string, requests: seq<string>)
    requires DistinctRequests(requests)
    ensures UniqueSlugs(AllCreated(models, api, requests))
  {
    if requests != [] {
      var n := |requests| - 1;
      CreatedUnique(models, api, requests[..n]);
      NotCreatedYet(models, api, requests, n);
      var made := AllCreated(models, api, requests[..n]);
      assert forall i :: 0 <= i < |made| ==> made[i] in made;
    }
  }

  /** Slugs stay unique up to case, so the call can be repeated. */
  lemma SlugsStayUnique(models: seq<Model>, api: string, requests: seq<string>)
    requires UniqueSlugs(models) && DistinctRequests(requests)
    ensures UniqueSlugs(Outcome(models, api, requests))
  {
    var head, made := AllTouched(models, api, requests), AllCreated(models, api, requests);
    CreatedUnique(models, api, requests);
    CreatedSlugs(models, api, requests);
    forall i | 0 <= i < |models| ensures head[i].slug == models[i].slug {
      TouchedKeepsSlug(models[i], api, requests);
    }
    forall i, j | 0 <= i < |head| && 0 <= j < |made| ensures !Named(head[i], made[j].slug) {
      assert made[j] in made;
    }
  }

  // ----- repeating the call -----

  /** The request is satisfied: its model exists and has the route. */
  predicate Satisfied(models: seq<Model>, api: string, request: string) {
    var k := Find(models, request);
    k.Some? && HasRoute(models[k.value], api, request)
  }

  lemma AssociatedHasRoute(model: Model, api: string, request: string)
    ensures HasRoute(Associated(model, api, request), api, request)
  {
    if !HasRoute(model, api, request) {
      assert RouteFrom(Associated(model, api, request).routes[|model.routes|], api);
    }
  }

  lemma {:induction false} TouchedHasRoute(model: Model, api: string, requests: seq<string>, j: nat)
    requires DistinctRequests(requests) && j < |requests| && Named(model, requests[j])
    ensures HasRoute(Touched(model, api, requests), api, requests[j])
  {
    var n := |requests| - 1;
    if j == n {
      AssociatedHasRoute(model, api, requests[n]);
    } else {
      assert !EqIgnoreCase(requests[j], requests[n]);
      TouchedHasRoute(model, api, requests[..n], j);
    }
  }

  lemma {:induction false} CreatedHasRoute(models: seq<Model>, api: string, requests: seq<string>, j: nat)
    requires j < |requests| && Find(models, requests[j]).None?
    ensures exists m :: m in AllCreated(models, api, requests) && Named(m, requests[j]) && HasRoute(m, api, requests[j])
  {
    var n := |requests| - 1;
    if j == n {
      var made := Created(api, requests[n], NextSort(models) + n);
      assert RouteFrom(made.routes[0], api);
      assert HasRoute(made, api, requests[n]);
      assert made in AllCreated(models, api, requests);
    } else {
      CreatedHasRoute(models, api, requests[..n], j);
    }
  }

  lemma OutcomeSatisfies(models: seq<Model>, api: string, requests: seq<string>, j: nat)
    requires UniqueSlugs(models) && DistinctRequests(requests) && j < |requests|
    ensures Satisfied(Outcome(models, api, requests), api, requests[j])
  {
    var after, k := Outcome(models, api, requests), Find(models, requests[j]);
    SlugsStayUnique(models, api, requests);
    var i: nat;
    if k.Some? {
      i := k.value;
      TouchedKeepsSlug(models[i], api, requests);
      TouchedHasRoute(models[i], api, requests, j);
    } else {
      CreatedHasRoute(models, api, requests, j);
      var m :| m in AllCreated(models, api, requests) && Named(m, requests[j]) && HasRoute(m, api, requests[j]);
      var at :| 0 <= at < |AllCreated(models, api, requests)| && AllCreated(models, api, requests)[at] == m;
      i := |models| + at;
    }
    assert Named(after[i], requests[j]) && HasRoute(after[i], api, requests[j]);
    OnlyNamed(after, requests[j], i);
    FindFirst(after, requests[j], i);
  }

  /** A route of the api to the request, up to case. */
  ghost predicate Reaches(model: Model, api: string, request: string) {
    exists route :: route in model.routes && route.kind == "aggregate_api" && route.source == api
                    && EqIgnoreCase(route.upstream, request)
  }

  lemma ReachesByRoute(model: Model, api: string, request: string)
    ensures Reaches(model, api, request) <==> HasRoute(model, api, request)
  {
    if HasRoute(model, api, request) {
      var i :| 0 <= i < |model.routes| && RouteFrom(model.routes[i], api)
        && EqIgnoreCase(model.routes[i].upstream, request);
      assert model.routes[i] in model.routes;
    }
    if Reaches(model, api, request) {
      var route :| route in model.routes && route.kind == "aggregate_api" && route.source == api
        && EqIgnoreCase(route.upstream, request);
      var i :| 0 <= i < |model.routes| && model.routes[i] == route;
      assert RouteFrom(model.routes[i], api);
    }
  }

  /** After the call every request has a model of its name with a route of the api to it. */
  lemma EveryRequestIsReached(models: seq<Model>, api: string, requests: seq<string>, j: nat)
    requires UniqueSlugs(models) && DistinctRequests(requests) && j < |requests|
    ensures exists m :: m in Outcome(models, api, requests) && Named(m, requests[j]) && Reaches(m, api, requests[j])
  {
    var after := Outcome(models, api, requests);
    OutcomeSatisfies(models, api, requests, j);
    var k := Find(after, requests[j]).value;
    ReachesByRoute(after[k], api, requests[j]);
  }

  /** The model of the request was there, with such a route. */
  ghost predicate WasReached(models: seq<Model>, api: string, request: string) {
    exists k :: 0 <= k < |models| && Find(models, request) == Some(k) && Reaches(models[k], api, request)
  }

  /** A request adds a route, or is answered as unchanged, by whether its model had such a route before. */
  lemma {:induction false} AddedOrPresent(models: seq<Model>, api: string, requests: seq<string>, j: nat)
    requires DistinctRequests(requests) && j < |requests|
    ensures var reply := Answer(models, api, requests);
            Names(if WasReached(models, api, requests[j]) then reply.present else reply.added, requests[j])
  {
    var n, found := |requests| - 1, Find(models, requests[j]);
    if found.Some? {
      ReachesByRoute(models[found.value], api, requests[j]);
    }
    AnswerExtends(models, api, requests);
    var before, name := Answer(models, api, requests[..n]), ListedName(models, requests[n]);
    NamesExtends(before.added, name, requests[j]);
    NamesExtends(before.present, name, requests[j]);
    if j < n {
      AddedOrPresent(models, api, requests[..n], j);
    }
  }

  lemma {:induction false} SatisfiedIsFixed(models: seq<Model>, api: string, requests: seq<string>)
    requires UniqueSlugs(models) && DistinctRequests(requests)
    requires forall j :: 0 <= j < |requests| ==> Satisfied(models, api, requests[j])
    ensures Outcome(models, api, requests) == models
    ensures Answer(models, api, requests).added == [] && Answer(models, api, requests).created == []
  {
    if requests == [] {
      assert AllTouched(models, api, []) == models;
    } else {
      var n := |requests| - 1;
      var k := Find(models, requests[n]).value;
      assert Satisfied(models, api, requests[n]);
      assert forall j :: 0 <= j < n ==> requests[..n][j] == requests[j];
      SatisfiedIsFixed(models, api, requests[..n]);
      KnownStep(models, api, requests, n, k);
      AssociatedTwice(models, k, api, requests[n]);
      assert requests[..n + 1] == requests;
      assert AllTouched(models, api, requests[..n]) == models && AllCreated(models, api, requests[..n]) == [] by {
        var head, made := AllTouched(models, api, requests[..n]), AllCreated(models, api, requests[..n]);
        assert |head + made| == |models|;
        assert made == [] && head == head + made;
      }
    }
  }

  /** Repeating the call adds nothing and changes nothing. */
  lemma RepeatAddsNothing(models: seq<Model>, api: string, requests: seq<string>)
    requires UniqueSlugs(models) && DistinctRequests(requests)
    ensures var after := Outcome(models, api, requests);
            && Outcome(after, api, requests) == after
            && Answer(after, api, requests).added == [] && Answer(after, api, requests).created == []
  {
    var after := Outcome(models, api, requests);
    SlugsStayUnique(models, api, requests);
    forall j | 0 <= j < |requests| ensures Satisfied(after, api, requests[j]) {
      OutcomeSatisfies(models, api, requests, j);
    }
    SatisfiedIsFixed(after, api, requests);
  }

  // ----- names as they come in -----

  /** An accepted name is not blank, has no white space and at most 200 bytes; the trimming with which storage
      writes a slug leaves it alone. */
  lemma IdsAreClean(raw: string, gemini: bool)
    requires ModelId(raw, gemini).Some?
    ensures var id := ModelId(raw, gemini).value;
            id != "" && Trim(id) == id && Utf8Length(id) <= 200 && forall c :: c in id ==> !IsSpace(c) && !IsControl(c)
  {
    NothingToTrim(ModelId(raw, gemini).value);
  }

  /** A name is refused only if, trimmed and without Gemini's prefix, it is empty, has more than 200 bytes, or has
      a space or a control character. */
  lemma RefusedNames(raw: string, gemini: bool)
    requires ModelId(raw, gemini).None?
    ensures var name := if gemini && "models/" <= Trim(raw) then Trim(raw)[7..] else Trim(raw);
            name == "" || Utf8Length(name) > 200 || exists c :: c in name && (IsSpace(c) || IsControl(c))
  {
  }

  /** Accepted once, a name is accepted again as it is; for Gemini exactly when no second prefix is left. */
  lemma IdsAreStable(raw: string, gemini: bool)
    requires ModelId(raw, gemini).Some?
    ensures ModelId(ModelId(raw, gemini).value, false) == ModelId(raw, gemini)
    ensures ModelId(ModelId(raw, gemini).value, true) == ModelId(raw, gemini)
        <==> !("models/" <= ModelId(raw, gemini).value)
  {
    var id := ModelId(raw, gemini).value;
    NothingToTrim(id);
    if "models/" <= id {
      assert |id[7..]| < |id|;
    }
  }

  lemma {:induction false} IdsComeFromNames(raws: seq<string>, id: string -> Option<string>, name: string)
    requires ModelIds(raws, id).Some? && name in ModelIds(raws, id).value
    ensures exists raw :: raw in raws && id(raw) == Some(name)
  {
    var n := |raws| - 1;
    if id(raws[n]) == Some(name) {
      assert raws[n] in raws;
    } else {
      IdsComeFromNames(raws[..n], id, name);
    }
  }

  /** The call on names as they come in: its requests are distinct up to case and clean, so all the laws above
      hold of it, and repeating it with the same names changes nothing and adds nothing. */
  lemma RepeatedCall(models: seq<Model>, api: string, raws: seq<string>, gemini: bool)
    requires UniqueSlugs(models) && ModelIds(raws, IdOf(gemini)).Some?
    ensures var requests := RequestsOf(raws, gemini);
            && DistinctRequests(requests) && (forall r :: r in requests ==> r != "" && Trim(r) == r)
            && var after := Outcome(models, api, requests);
               Outcome(after, api, requests) == after && Answer(after, api, requests).added == []
  {
    var ids := ModelIds(raws, IdOf(gemini)).value;
    var requests := RequestsOf(raws, gemini);
    KeepFirstIsDistinct(ids, Lower);
    KeepFirstCovers(ids, Lower);
    forall r | r in requests ensures r != "" && Trim(r) == r {
      IdsComeFromNames(raws, IdOf(gemini), r);
      var raw :| raw in raws && IdOf(gemini)(raw) == Some(r);
      IdsAreClean(raw, gemini);
    }
    RepeatAddsNothing(models, api, requests);
  }
}
