/** The configuration loader's maps: recording, cross validation in place, and lookups. */
module Loader {
  import opened Values
  import opened Configuration
  import opened Conversions
  import opened References
  import opened Engine
  import opened Templates
  import opened Extraction
  import opened Noninterference

  // ---- What cross validation checks ----

  predicate VendorsExist(vendors: set<string>, rules: seq<RoutingRule>) {
    forall i :: 0 <= i < |rules| ==> rules[i].vendorID in vendors
  }

  /** A usable route: no error, and every vendor it names has an entry (possibly an errored one). */
  predicate RouteInOrder(vendors: set<string>, route: Loaded<seq<RoutingRule>>) {
    route.error.None? && route.value.Some? ==> VendorsExist(vendors, route.value.value)
  }

  /**
    What cross validation may leave in place of a route: an out-of-order one gets its first missing vendor as
    error.
   */
  predicate RouteChecked(vendors: set<string>, was: Loaded<seq<RoutingRule>>, now: Loaded<seq<RoutingRule>>) {
    if RouteInOrder(vendors, was) then now == was
    else
      && now.value.None? && now.error.Some? && now.error.value.MissingVendor?
      && exists i ::
        && 0 <= i < |was.value.value| && was.value.value[i].vendorID == now.error.value.vendorID
        && now.error.value.vendorID !in vendors && VendorsExist(vendors, was.value.value[..i])
  }

  /** The schema's declared fields, if the contract's event has a usable schema with properties. */
  function Declared(schemas: map<string, Loaded<map<string, Value>>>, eventType: string): Option<set<string>> {
    if eventType == "" || eventType !in schemas then None
    else
      var schema := schemas[eventType];
      if schema.error.Some? || schema.value.None? || "properties" !in schema.value.value then None
      else
        var properties := schema.value.value["properties"];
        if properties.Obj? then Some(properties.fields.Keys) else None
  }

  ghost predicate MentionsOnly(template: map<string, Value>, declared: set<string>) {
    forall f :: Mentions(Obj(template), f) ==> f in declared
  }

  ghost predicate ContractInOrder(schemas: map<string, Loaded<map<string, Value>>>, contract: Loaded<DeliverySpec>) {
    contract.error.None? && contract.value.Some? ==>
      var mapping := contract.value.value.mapping;
      Declared(schemas, mapping.eventType).Some? ==>
        MentionsOnly(mapping.body.template, Declared(schemas, mapping.eventType).value)
  }

  ghost predicate ContractChecked(schemas: map<string, Loaded<map<string, Value>>>,
                                  was: Loaded<DeliverySpec>, now: Loaded<DeliverySpec>) {
    if ContractInOrder(schemas, was) then now == was
    else
      var mapping := was.value.value.mapping;
      && now.value.None? && now.error.Some? && now.error.value.UndeclaredField?
      && now.error.value.eventType == mapping.eventType
      && Mentions(Obj(mapping.body.template), now.error.value.field)
      && now.error.value.field !in Declared(schemas, mapping.eventType).value
  }

  /** An entry has an item or an error, not both and not neither. */
  predicate Settled<T>(entries: map<string, Loaded<T>>) {
    forall k :: k in entries ==> (entries[k].error.Some? <==> entries[k].value.None?)
  }

  /** A route that fails to load carries no rules; one without rules is not an error. */
  predicate NoBoth<T>(entries: map<string, Loaded<T>>) {
    forall k :: k in entries ==> entries[k].error.Some? ==> entries[k].value.None?
  }

  class Loader {
    var routingRules: map<string, Loaded<seq<RoutingRule>>>
    var vendorConfigs: map<string, Loaded<VendorConfig>>
    var deliveryContracts: map<string, Loaded<DeliverySpec>>
    var eventSchemas: map<string, Loaded<map<string, Value>>>

    predicate Valid()
      reads this
    {
      Settled(vendorConfigs) && Settled(deliveryContracts) && Settled(eventSchemas) && NoBoth(routingRules)
    }

    /** Every usable entry passes the cross checks. */
    ghost predicate Consistent()
      reads this
    {
      && (forall k :: k in routingRules ==> RouteInOrder(vendorConfigs.Keys, routingRules[k]))
      && (forall k :: k in deliveryContracts ==> ContractInOrder(eventSchemas, deliveryContracts[k]))
    }

    constructor ()
      ensures Valid() && routingRules == map[] && vendorConfigs == map[]
      ensures deliveryContracts == map[] && eventSchemas == map[]
    {
      routingRules, vendorConfigs, deliveryContracts, eventSchemas := map[], map[], map[], map[];
    }

    // ---- Recording what a file held ----

    method RecordRoutes(name: string, file: Result<(string, seq<string>), ConfigError>)
      requires Valid()
      modifies this`routingRules
      ensures Valid()
      ensures
        match file
        case Err(e) => routingRules == old(routingRules)[name := Loaded(None, Some(e))]
        case Ok((eventType, vendors)) =>
          if eventType == "" then routingRules ==
              old(routingRules)[name := Loaded(None, Some(LoadFailed("missing event_type")))]
          else
            && routingRules.Keys == old(routingRules).Keys + {eventType}
            && (forall k :: k in old(routingRules) && k != eventType ==> routingRules[k] == old(routingRules)[k])
            && routingRules[eventType].error.None?
            && (routingRules[eventType].value.None? <==> vendors == [])
            && (vendors != [] ==>
                  && |routingRules[eventType].value.value| == |vendors|
                  && forall i :: 0 <= i < |vendors| ==>
                      routingRules[eventType].value.value[i] == RoutingRule(eventType, vendors[i]))
    {
      match file {
        case Err(e) => routingRules := routingRules[name := Loaded(None, Some(e))];
        case Ok((eventType, vendors)) =>
          if eventType == "" {
            routingRules := routingRules[name := Loaded(None, Some(LoadFailed("missing event_type")))];
          } else {
            var rules := [];
            for i := 0 to |vendors|
              invariant |rules| == i
              invariant forall j :: 0 <= j < i ==> rules[j] == RoutingRule(eventType, vendors[j])
            {
              rules := rules + [RoutingRule(eventType, vendors[i])];
            }
            routingRules := routingRules[eventType := Loaded(if rules == [] then None else Some(rules), None)];
          }
      }
    }

    method RecordSchema(name: string, file: Result<(string, Option<map<string, Value>>), ConfigError>)
      requires Valid()
      modifies this`eventSchemas
      ensures Valid()
      ensures eventSchemas ==
        match file
        case Err(e) => old(eventSchemas)[name := Loaded(None, Some(e))]
        case Ok((eventType, schema)) =>
          if eventType == "" || schema.None? then
            old(eventSchemas)[name := Loaded(None, Some(LoadFailed("missing event_type or schema")))]
          else old(eventSchemas)[eventType := Loaded(schema, None)]
    {
      match file {
        case Err(e) => eventSchemas := eventSchemas[name := Loaded(None, Some(e))];
        case Ok((eventType, schema)) =>
          if eventType == "" || schema.None? {
            eventSchemas := eventSchemas[name := Loaded(None, Some(LoadFailed("missing event_type or schema")))];
          } else {
            eventSchemas := eventSchemas[eventType := Loaded(schema, None)];
          }
      }
    }

    /**
      A vendor file is recorded as an error if it or one of its two durations cannot be parsed, the base
      delay first.
     */
    method RecordVendor(vendorID: string, file: Result<VendorFile, ConfigError>)
      requires Valid()
      modifies this`vendorConfigs
      ensures Valid()
      ensures vendorConfigs == old(vendorConfigs)[vendorID :=
        match file
        case Err(e) => Loaded(None, Some(e))
        case Ok(f) =>
          if f.baseDelayMs.Err? then Loaded(None, Some(BadDuration("parsing base_delay", f.baseDelayMs.error)))
          else if f.maxDelayMs.Err? then Loaded(None, Some(BadDuration("parsing max_delay", f.maxDelayMs.error)))
          else Loaded(Some(VendorConfig(vendorID, f.baseURL,
            RetryPolicy(f.maxAttempts, f.baseDelayMs.value, f.maxDelayMs.value, f.multiplier, f.jitter))), None)]
    {
      match file {
        case Err(e) => vendorConfigs := vendorConfigs[vendorID := Loaded(None, Some(e))];
        case Ok(f) =>
          if f.baseDelayMs.Err? {
            var error := BadDuration("parsing base_delay", f.baseDelayMs.error);
            vendorConfigs := vendorConfigs[vendorID := Loaded(None, Some(error))];
            return;
          }
          if f.maxDelayMs.Err? {
            var error := BadDuration("parsing max_delay", f.maxDelayMs.error);
            vendorConfigs := vendorConfigs[vendorID := Loaded(None, Some(error))];
            return;
          }
          var retry := RetryPolicy(f.maxAttempts, f.baseDelayMs.value, f.maxDelayMs.value, f.multiplier, f.jitter);
          vendorConfigs := vendorConfigs[vendorID := Loaded(Some(VendorConfig(vendorID, f.baseURL, retry)), None)];
      }
    }

    /** `retry` is the contract's own retry policy, parsed; a bad one is recorded under the file's name. */
    method RecordContract(vendorID: string, event: string, fileName: string,
                          file: Result<MappingConfig, ConfigError>, retry: Option<Result<RetryPolicy, ConfigError>>)
      requires Valid()
      modifies this`deliveryContracts
      ensures Valid()
      ensures deliveryContracts ==
        match file
        case Err(e) => old(deliveryContracts)[vendorID + "/" + event := Loaded(None, Some(e))]
        case Ok(mapping) =>
          var eventType := if mapping.eventType == "" then event else mapping.eventType;
          match retry
          case Some(Err(e)) => old(deliveryContracts)[vendorID + "/" + fileName := Loaded(None, Some(e))]
          case Some(Ok(policy)) => old(deliveryContracts)[vendorID + "/" + eventType :=
            Loaded(Some(DeliverySpec(mapping.(eventType := eventType), Some(policy))), None)]
          case None => old(deliveryContracts)[vendorID + "/" + eventType :=
            Loaded(Some(DeliverySpec(mapping.(eventType := eventType), None)), None)]
    {
      match file {
        case Err(e) =>
          deliveryContracts := deliveryContracts[vendorID + "/" + event := Loaded(None, Some(e))];
        case Ok(mapping) =>
          var eventType := mapping.eventType;
          if eventType == "" { eventType := event; }
          var spec := DeliverySpec(mapping.(eventType := eventType), None);
          if retry.Some? {
            if retry.value.Err? {
              var error := Loaded(None, Some(retry.value.error));
              deliveryContracts := deliveryContracts[vendorID + "/" + fileName := error];
              return;
            }
            spec := spec.(retry := Some(retry.value.value));
          }
          deliveryContracts := deliveryContracts[vendorID + "/" + eventType := Loaded(Some(spec), None)];
      }
    }

    // ---- Cross validation ----

    /**
      Marks every route that names a vendor without an entry and every contract that mentions an
      undeclared field; everything else stays as it was. What is consistent already, it leaves alone.
     */
    method ValidateCrossConfig()
      requires Valid()
      modifies this`routingRules, this`deliveryContracts
      ensures Valid() && Consistent()
      ensures old(Consistent()) ==> routingRules == old(routingRules) && deliveryContracts == old(deliveryContracts)
      ensures routingRules.Keys == old(routingRules).Keys && deliveryContracts.Keys == old(deliveryContracts).Keys
      ensures forall k :: k in routingRules ==> RouteChecked(vendorConfigs.Keys, old(routingRules)[k], routingRules[k])
      ensures forall k :: k in deliveryContracts ==>
          ContractChecked(eventSchemas, old(deliveryContracts)[k], deliveryContracts[k])
    {
      ghost var routes, contracts := routingRules, deliveryContracts;
      CheckRoutes();
      CheckContracts();
      hide RouteInOrder, ContractInOrder, ContractChecked;
      forall k | k in routingRules ensures RouteInOrder(vendorConfigs.Keys, routingRules[k]) {
        RouteEndsInOrder(vendorConfigs.Keys, old(routingRules)[k], routingRules[k]);
      }
      forall k | k in deliveryContracts ensures ContractInOrder(eventSchemas, deliveryContracts[k]) {
        ContractEndsInOrder(eventSchemas, old(deliveryContracts)[k], deliveryContracts[k]);
      }
      hide RouteChecked;
      if old(Consistent()) {
        forall k | k in routes ensures routingRules[k] == routes[k] {
          CheckedRouteStays(vendorConfigs.Keys, routes[k], routingRules[k]);
        }
        forall k | k in contracts ensures deliveryContracts[k] == contracts[k] {
          CheckedContractStays(eventSchemas, contracts[k], deliveryContracts[k]);
        }
      }
    }

    /** A second run leaves the maps as the first one made them. */
    method ValidateTwice()
      returns (routes: map<string, Loaded<seq<RoutingRule>>>, contracts: map<string, Loaded<DeliverySpec>>)
      requires Valid()
      modifies this`routingRules, this`deliveryContracts
      ensures Valid() && Consistent()
      ensures routingRules == routes && deliveryContracts == contracts
      ensures routes.Keys == old(routingRules).Keys && contracts.Keys == old(deliveryContracts).Keys
      ensures forall k :: k in routes ==> RouteChecked(vendorConfigs.Keys, old(routingRules)[k], routes[k])
      ensures forall k :: k in contracts ==> ContractChecked(eventSchemas, old(deliveryContracts)[k], contracts[k])
    {
      ValidateCrossConfig();
      routes, contracts := routingRules, deliveryContracts;
      ValidateCrossConfig();
    }

    method CheckRoutes()
      requires Valid()
      modifies this`routingRules
      ensures Valid()
      ensures routingRules.Keys == old(routingRules).Keys
      ensures forall k :: k in routingRules ==> RouteChecked(vendorConfigs.Keys, old(routingRules)[k], routingRules[k])
    {
      var keys := routingRules.Keys;
      while keys != {}
        invariant keys <= routingRules.Keys == old(routingRules).Keys
        invariant forall k :: k in keys ==> routingRules[k] == old(routingRules)[k]
        invariant forall k :: k in routingRules && k !in keys ==>
          RouteChecked(vendorConfigs.Keys, old(routingRules)[k], routingRules[k])
        invariant NoBoth(routingRules)
        decreases keys
      {
        hide RouteChecked;
        var eventType :| eventType in keys;
        var checked := CheckRoute(routingRules[eventType]);
        keys := keys - {eventType};
        routingRules := routingRules[eventType := checked];
      }
    }

    method CheckRoute(route: Loaded<seq<RoutingRule>>) returns (checked: Loaded<seq<RoutingRule>>)
      ensures RouteChecked(vendorConfigs.Keys, route, checked)
      ensures (route.error.Some? ==> route.value.None?) ==> (checked.error.Some? ==> checked.value.None?)
    {
      checked := route;
      if route.error.Some? || route.value.None? { return; }
      for i := 0 to |route.value.value|
        invariant VendorsExist(vendorConfigs.Keys, route.value.value[..i])
      {
        var vendorID := route.value.value[i].vendorID;
        if vendorID !in vendorConfigs {
          return Loaded(None, Some(MissingVendor(vendorID)));
        }
      }
      assert route.value.value[..|route.value.value|] == route.value.value;
    }

    method CheckContracts()
      requires Valid()
      modifies this`deliveryContracts
      ensures Valid()
      ensures deliveryContracts.Keys == old(deliveryContracts).Keys
      ensures forall k :: k in deliveryContracts ==>
          ContractChecked(eventSchemas, old(deliveryContracts)[k], deliveryContracts[k])
    {
      var keys := deliveryContracts.Keys;
      while keys != {}
        invariant keys <= deliveryContracts.Keys == old(deliveryContracts).Keys
        invariant forall k :: k in keys ==> deliveryContracts[k] == old(deliveryContracts)[k]
        invariant forall k :: k in deliveryContracts && k !in keys ==>
          ContractChecked(eventSchemas, old(deliveryContracts)[k], deliveryContracts[k])
        invariant Settled(deliveryContracts)
        decreases keys
      {
        hide ContractChecked;
        var key :| key in keys;
        var checked := CheckContract(deliveryContracts[key]);
        keys := keys - {key};
        deliveryContracts := deliveryContracts[key := checked];
      }
    }

    method CheckContract(contract: Loaded<DeliverySpec>) returns (checked: Loaded<DeliverySpec>)
      ensures ContractChecked(eventSchemas, contract, checked)
      ensures checked == contract || (checked.error.Some? && checked.value.None?)
    {
      checked := contract;
      if contract.error.Some? || contract.value.None? { return; }
      var mapping := contract.value.value.mapping;
      var eventType := mapping.eventType;
      if eventType == "" { return; }
      if eventType !in eventSchemas { return; }
      var schema := eventSchemas[eventType];
      if schema.error.Some? || schema.value.None? { return; }
      if "properties" !in schema.value.value { return; }
      var properties := schema.value.value["properties"];
      if !properties.Obj? { return; }

      var refs := ExtractPayloadRefs(Obj(mapping.body.template));
      for i := 0 to |refs|
        invariant forall j :: 0 <= j < i ==> refs[j] in properties.fields
      {
        if refs[i] !in properties.fields {
          assert refs[i] in refs;
          return Loaded(None, Some(UndeclaredField(refs[i], eventType)));
        }
      }
      hide Mentions;
    }

    // ---- Lookups ----

    /** The contract with the vendor's retry policy filled in, or the first reason why there is none. */
    method GetDeliverySpec(vendorID: string, eventType: string) returns (r: Result<DeliverySpec, ConfigError>)
      requires Valid()
      ensures
        var key := vendorID + "/" + eventType;
        match r
        case Ok(spec) =>
          && vendorID in vendorConfigs && vendorConfigs[vendorID].error.None?
          && key in deliveryContracts && deliveryContracts[key].error.None?
          && var stored := deliveryContracts[key].value.value;
             spec.mapping == stored.mapping && spec.retry.Some?
             && spec.retry.value == if stored.retry.Some? then stored.retry.value
                 else vendorConfigs[vendorID].value.value.retry
        case Err(e) =>
          || (vendorID !in vendorConfigs && e == NotConfigured)
          || (vendorID in vendorConfigs && vendorConfigs[vendorID].error == Some(e))
          || (vendorID in vendorConfigs && vendorConfigs[vendorID].error.None? && key !in deliveryContracts &&
              e == NotConfigured)
          || (vendorID in vendorConfigs && vendorConfigs[vendorID].error.None? && key in deliveryContracts
              && deliveryContracts[key].error == Some(e))
    {
      if vendorID !in vendorConfigs { return Err(NotConfigured); }
      if vendorConfigs[vendorID].error.Some? { return Err(vendorConfigs[vendorID].error.value); }
      var vendor := vendorConfigs[vendorID].value.value;
      var key := vendorID + "/" + eventType;
      if key !in deliveryContracts { return Err(NotConfigured); }
      if deliveryContracts[key].error.Some? { return Err(deliveryContracts[key].error.value); }
      var spec := deliveryContracts[key].value.value;
      if spec.retry.None? { spec := spec.(retry := Some(vendor.retry)); }
      r := Ok(spec);
    }

    /** After cross validation a route that is handed out names only vendors with an entry. */
    method GetRoutingRules(eventType: string) returns (r: Result<seq<RoutingRule>, ConfigError>)
      requires Valid()
      ensures r.Ok? <==> eventType in routingRules && routingRules[eventType].error.None?
      ensures r.Ok? ==> r.value == if routingRules[eventType].value.Some? then routingRules[eventType].value.value
          else []
      ensures r.Err? ==> Some(r.error) == if eventType in routingRules then routingRules[eventType].error
          else Some(NotConfigured)
      ensures Consistent() && r.Ok? ==> forall i :: 0 <= i < |r.value| ==> r.value[i].vendorID in vendorConfigs
    {
      if eventType !in routingRules { return Err(NotConfigured); }
      var route := routingRules[eventType];
      if route.error.Some? { return Err(route.error.value); }
      r := Ok(if route.value.Some? then route.value.value else []);
    }
  }

  // ---- Cross validation settles the configuration ----

  lemma RouteEndsInOrder(vendors: set<string>, was: Loaded<seq<RoutingRule>>, now: Loaded<seq<RoutingRule>>)
    requires RouteChecked(vendors, was, now)
    ensures RouteInOrder(vendors, now)
    ensures now.error.None? && now.value.Some? <==>
        was.error.None? && was.value.Some? && VendorsExist(vendors, was.value.value)
  {
  }

  lemma ContractEndsInOrder(schemas: map<string, Loaded<map<string, Value>>>, was: Loaded<DeliverySpec>,
      now: Loaded<DeliverySpec>)
    requires ContractChecked(schemas, was, now)
    ensures ContractInOrder(schemas, now)
  {
  }

  /**
    A usable contract is kept exactly if its event has no usable schema with properties, or every field
    its template mentions is one of them.
   */
  lemma CheckedContractIsKeptIff(schemas: map<string, Loaded<map<string, Value>>>, spec: DeliverySpec,
      schema: map<string, Value>, now: Loaded<DeliverySpec>)
    requires spec.mapping.eventType != "" && spec.mapping.eventType in schemas
    requires schemas[spec.mapping.eventType] == Loaded(Some(schema), None)
    requires ContractChecked(schemas, Loaded(Some(spec), None), now)
    ensures now == Loaded(Some(spec), None) <==>
      ("properties" in schema && schema["properties"].Obj? ==>
         forall f :: Mentions(Obj(spec.mapping.body.template), f) ==> f in schema["properties"].fields)
  {
    hide Mentions;
  }

  /** Without a loaded schema nothing is checked. */
  lemma UncheckedContractIsKept(schemas: map<string, Loaded<map<string, Value>>>, spec: DeliverySpec,
      now: Loaded<DeliverySpec>)
    requires ContractChecked(schemas, Loaded(Some(spec), None), now)
    requires
      var e := spec.mapping.eventType;
      e == "" || e !in schemas || schemas[e].error.Some? || schemas[e].value.None?
    ensures now == Loaded(Some(spec), None)
  {
  }

  /** Checking what is in order changes nothing. */
  lemma CheckedRouteStays(vendors: set<string>, was: Loaded<seq<RoutingRule>>, now: Loaded<seq<RoutingRule>>)
    requires RouteInOrder(vendors, was) && RouteChecked(vendors, was, now)
    ensures now == was
  {
  }

  lemma CheckedContractStays(schemas: map<string, Loaded<map<string, Value>>>, was: Loaded<DeliverySpec>,
      now: Loaded<DeliverySpec>)
    requires ContractInOrder(schemas, was) && ContractChecked(schemas, was, now)
    ensures now == was
  {
  }

  /** A second run of the check leaves a checked route and a checked contract as they are. */
  lemma CheckingTwiceChangesNothing(
    vendors: set<string>, route: Loaded<seq<RoutingRule>>, route': Loaded<seq<RoutingRule>>,
        route'': Loaded<seq<RoutingRule>>,
    schemas: map<string, Loaded<map<string, Value>>>,
    contract: Loaded<DeliverySpec>, contract': Loaded<DeliverySpec>, contract'': Loaded<DeliverySpec>)
    requires RouteChecked(vendors, route, route') && RouteChecked(vendors, route', route'')
    requires ContractChecked(schemas, contract, contract') && ContractChecked(schemas, contract', contract'')
    ensures route'' == route' && contract'' == contract'
  {
    hide RouteChecked, ContractChecked, RouteInOrder, ContractInOrder;
    RouteEndsInOrder(vendors, route, route');
    ContractEndsInOrder(schemas, contract, contract');
    CheckedRouteStays(vendors, route', route'');
    CheckedContractStays(schemas, contract', contract'');
  }

  // ---- What an accepted contract can read ----

  /**
    The mapping body of a contract that passed cross validation against a schema with properties
    depends only on the declared fields of the payload, if its template is tidy.
   */
  lemma AcceptedBodyReadsOnlyDeclaredFields(
    rt: Runtime, schemas: map<string, Loaded<map<string, Value>>>, contract: Loaded<DeliverySpec>,
    p: map<string, Value>, q: map<string, Value>, r: Result<Value, Failure>)
    requires ContractInOrder(schemas, contract) && contract.error.None? && contract.value.Some?
    requires Declared(schemas, contract.value.value.mapping.eventType).Some?
    requires Tidy(Obj(contract.value.value.mapping.body.template))
    requires forall f :: f in Declared(schemas, contract.value.value.mapping.eventType).value ==> SameField(p, q, f)
    ensures
      var body := Obj(contract.value.value.mapping.body.template);
      Answers(rt, body, Context(p, Null), r) <==> Answers(rt, body, Context(q, Null), r)
  {
    var body := Obj(contract.value.value.mapping.body.template);
    hide Declared, Mentions, Tidy, Answers, SameField;
    TemplatesReadOnlyMentionedFields(rt, body, p, q, Null, r);
  }

  // ---- What its request path can read ----

  /** The text a path expression puts into the URL. */
  function PathText(rt: Runtime, path: string, payload: map<string, Value>): string {
    ToText(rt, ResolveField(rt, path, Context(payload, Null)))
  }

  ghost predicate SameFields(declared: set<string>, p: map<string, Value>, q: map<string, Value>) {
    forall f :: f in declared ==> SameField(p, q, f)
  }

  /** The text is the same for payloads that agree on these fields. */
  ghost predicate ReadsOnly(rt: Runtime, path: string, declared: set<string>) {
    forall p, q :: SameFields(declared, p, q) ==> PathText(rt, path, p) == PathText(rt, path, q)
  }

  /**
    The request path is outside the check: whatever path is put into a contract in order, the contract
    stays in order. A path that is one payload reference depends only on declared fields exactly
    when the first key of the reference is declared.
   */
  lemma PathIsNotChecked(rt: Runtime, schemas: map<string, Loaded<map<string, Value>>>, spec: DeliverySpec,
      path: string)
    requires ContractInOrder(schemas, Loaded(Some(spec), None))
    requires Declared(schemas, spec.mapping.eventType).Some? && path != "" && '}' !in path
    ensures ContractInOrder(schemas, Loaded(Some(WithPath(spec, Spelling(Payload, path))), None))
    ensures
      var declared := Declared(schemas, spec.mapping.eventType).value;
      ReadsOnly(rt, Spelling(Payload, path), declared) <==> Split(path)[0] in declared
  {
    LonePathIsSafeIff(rt, path, Declared(schemas, spec.mapping.eventType).value);
    hide Spelling, Declared, MentionsOnly, ReadsOnly, Split;
  }

  function WithPath(spec: DeliverySpec, path: string): DeliverySpec {
    spec.(mapping := spec.mapping.(request := spec.mapping.request.(path := path)))
  }

  lemma LonePathIsSafeIff(rt: Runtime, path: string, declared: set<string>)
    requires path != "" && '}' !in path
    ensures ReadsOnly(rt, Spelling(Payload, path), declared) <==> Split(path)[0] in declared
  {
    var key := Split(path)[0];
    forall p ensures PathText(rt, Spelling(Payload, path), p) == ToText(rt, NestedField(p, path)) {
      LoneReferenceValue(rt, Payload, path, Context(p, Null));
    }
    hide Spelling, ResolveField, Split;
    if key in declared {
      forall p, q | SameFields(declared, p, q) ensures NestedField(p, path) == NestedField(q, path) {
        assert SameField(p, q, key);
      }
    } else {
      var p, q := map[], Nest(Split(path), Str("x"));
      assert SameFields(declared, p, q);
      WalkNest(Split(path), Str("x"));
      assert PathText(rt, Spelling(Payload, path), p) != PathText(rt, Spelling(Payload, path), q);
    }
  }

  /** Every payload reference the expression resolves has a path whose first key is declared. */
  ghost predicate FirstKeysDeclared(path: string, declared: set<string>) {
    forall m :: m in Matches(path, 0) && m.scope == Payload ==> m.path != "" && Split(m.path)[0] in declared
  }

  /** Checking the path as the loader checks the body would do, for covered paths. */
  lemma MentionsAreFirstKeys(path: string, declared: set<string>)
    requires Covered(path) && forall f :: Mentions(Str(path), f) ==> f in declared
    ensures FirstKeysDeclared(path, declared)
  {
    hide Matches, Hits, Cut, Split;
    forall m | m in Matches(path, 0) && m.scope == Payload ensures m.path != "" && Split(m.path)[0] in declared {
      ScannerCoversRegex(path, m);
      CutIsTheFirstKey(m.path);
      var i :| 0 <= i < |Hits(path, 0)| && Hits(path, 0)[i] == Hit(m.start, Cut(m.path));
      assert Reports(Hits(path, 0), Cut(m.path));
    }
  }

  lemma DeclaredKeysSuffice(rt: Runtime, path: string, declared: set<string>)
    requires FirstKeysDeclared(path, declared)
    ensures ReadsOnly(rt, path, declared)
  {
    hide Matches, Split;
    forall p, q | SameFields(declared, p, q)
        ensures ResolveField(rt, path, Context(p, Null)) == ResolveField(rt, path, Context(q, Null)) {
      forall m | m in Matches(path, 0)
        ensures RefValue(m.scope, m.path, Context(p, Null)) == RefValue(m.scope, m.path, Context(q, Null))
      {
        if m.scope == Payload { assert SameField(p, q, Split(m.path)[0]); }
      }
      SameReferencesSameField(rt, path, Context(p, Null), Context(q, Null));
    }
    hide ResolveField;
  }

  lemma SameReferencesSameField(rt: Runtime, s: string, a: Context, b: Context)
    requires forall m :: m in Matches(s, 0) ==> RefValue(m.scope, m.path, a) == RefValue(m.scope, m.path, b)
    ensures ResolveField(rt, s, a) == ResolveField(rt, s, b)
  {
    hide RefValue, Matches, MatchAt;
    ReplacementsAgree(rt, s, 0, a, b);
    FirstMatchIsListed(s, 0);
  }

  /**
    Body and path together: an accepted contract with a tidy template, whose path resolves only
    references to declared fields, depends only on the declared fields of the payload.
   */
  lemma AcceptedRequestReadsOnlyDeclaredFields(
    rt: Runtime, schemas: map<string, Loaded<map<string, Value>>>, contract: Loaded<DeliverySpec>,
    p: map<string, Value>, q: map<string, Value>, r: Result<Value, Failure>)
    requires ContractInOrder(schemas, contract) && contract.error.None? && contract.value.Some?
    requires Declared(schemas, contract.value.value.mapping.eventType).Some?
    requires Tidy(Obj(contract.value.value.mapping.body.template))
    requires FirstKeysDeclared(contract.value.value.mapping.request.path,
                               Declared(schemas, contract.value.value.mapping.eventType).value)
    requires SameFields(Declared(schemas, contract.value.value.mapping.eventType).value, p, q)
    ensures
      var body := Obj(contract.value.value.mapping.body.template);
      Answers(rt, body, Context(p, Null), r) <==> Answers(rt, body, Context(q, Null), r)
    ensures
      var path := contract.value.value.mapping.request.path;
      PathText(rt, path, p) == PathText(rt, path, q)
  {
    var declared, path := Declared(schemas, contract.value.value.mapping.eventType).value,
        contract.value.value.mapping.request.path;
    hide Declared, Tidy, Answers, SameField, ContractInOrder, FirstKeysDeclared, PathText;
    AcceptedBodyReadsOnlyDeclaredFields(rt, schemas, contract, p, q, r);
    DeclaredKeysSuffice(rt, path, declared);
  }
}
