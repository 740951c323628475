/** The listener's front door: the sender filter and the routing of a decoded EDDN
 *  envelope to one of the six handlers (eddnlistener/eddnlistener.go:563-630,
 *  eddnlistener.go:87-154). */
module Listener {
  import opened Wrappers
  import opened Json
  import opened Store
  import opened Events
  import opened Arrival
  import opened Docked
  import opened Market
  import opened Scan

  /** The senders whose timestamps are malformed. */
  const DeniedClients: set<string> :=
    {"ED-IBE (API)", "EDCE", "Elite G19s Companion App", "EVA [iPhone]", "EVA [iPad]"}

  /** `ClientAllowed`: a chain of refusals by name; the version is not looked at. */
  function ClientAllowed(client: string, version: string): (r: bool)
    ensures r <==> client !in DeniedClients
  {
    if client == "ED-IBE (API)" then false
    else if client == "EDCE" then false
    else if client == "Elite G19s Companion App" then false
    else if client == "EVA [iPhone]" then false
    else if client == "EVA [iPad]" then false
    else true
  }

  const JournalSchema := "https://eddn.edcd.io/schemas/journal/1"
  const CommoditySchema := "https://eddn.edcd.io/schemas/commodity/3"
  const OutfittingSchema := "https://eddn.edcd.io/schemas/outfitting/2"

  /** Where a message goes. */
  datatype Handler = ToArrival | ToDocked | ToBodyScan | ToStarScan | ToMarket | ToOutfitting | Nowhere

  /** The `message` member as an object, or the panic of its type assertion. */
  function MessageOf(data: Doc): Step<Doc>
  {
    var m := Get(data, "message");
    if m.Obj? then Done(m.fields) else Stop(Panicked("message is not an object"))
  }

  /** The routing of `HandleMessage`: the sender's name and version and the schema must be
   *  strings (else the type assertions panic), a denied sender is ignored, and a journal
   *  message is routed by its event; a scan goes to the body handler exactly when it has
   *  no stellar mass. */
  function Route(data: Doc): Step<(Handler, Doc)>
  {
    var header := Get(data, "header");
    if !header.Obj? then Stop(Panicked("header is not an object"))
    else
      var client := Get(header.fields, "softwareName");
      var version := Get(header.fields, "softwareVersion");
      if !client.Str? then Stop(Panicked("softwareName is not a string"))
      else if !version.Str? then Stop(Panicked("softwareVersion is not a string"))
      else if !ClientAllowed(client.s, version.s) then Done((Nowhere, map[]))
      else
        var schema := Get(data, "$schemaRef");
        if !schema.Str? then Stop(Panicked("$schemaRef is not a string"))
        else if schema.s == JournalSchema then
          match MessageOf(data)
          case Stop(o) => Stop(o)
          case Done(message) =>
            var event := Get(message, "event");
            if !event.Str? then Stop(Panicked("event is not a string"))
            else if event.s == "FSDJump" then Done((ToArrival, message))
            else if event.s == "Docked" then Done((ToDocked, message))
            else if event.s == "Scan" then
              if Get(message, "StellarMass") == Null then Done((ToBodyScan, message))
              else Done((ToStarScan, message))
            else Done((Nowhere, map[]))
        else if schema.s == CommoditySchema then
          match MessageOf(data)
          case Stop(o) => Stop(o)
          case Done(message) => Done((ToMarket, message))
        else if schema.s == OutfittingSchema then
          match MessageOf(data)
          case Stop(o) => Stop(o)
          case Done(message) => Done((ToOutfitting, message))
        else Done((Nowhere, map[]))
  }

  /** What one handler does with the message. */
  function Dispatch(st: State, h: Handler, message: Doc, env: Env): Effect
  {
    match h
    case ToArrival => ArrivalSpec(st, message, env)
    case ToDocked => DockedSpec(st, message, env)
    case ToBodyScan => BodyScanSpec(st, message, env)
    case ToStarScan => StarScanSpec(st, message, env)
    case ToMarket => MarketSpec(st, message, env)
    case ToOutfitting => OutfittingSpec(st, message, env)
    case Nowhere => Effect(st, Handled)
  }

  /** `HandleMessage` on a decoded envelope; a message that did not decode is dropped. */
  function MessageSpec(st: State, decoded: Result<Doc>, env: Env): Effect
  {
    match decoded
    case Err(m) => Effect(st, Dropped(m))
    case Ok(data) =>
      match Route(data)
      case Stop(o) => Effect(st, o)
      case Done((h, message)) => Dispatch(st, h, message, env)
  }

  /** `HandleMessage`. */
  method HandleMessage(store: Store, decoded: Result<Doc>, env: Env) returns (outcome: Outcome)
    modifies store
    ensures Effect(store.View(), outcome) == MessageSpec(old(store.View()), decoded, env)
  {
    if decoded.Err? {
      return Dropped(decoded.msg);
    }
    var route := Route(decoded.value);
    if route.Stop? {
      return route.outcome;
    }
    var (h, message) := route.value;
    match h {
      case ToArrival => outcome := HandleFSDJump(store, message, env);
      case ToDocked => outcome := HandleDocked(store, message, env);
      case ToBodyScan => outcome := HandleBodyScan(store, message, env);
      case ToStarScan => outcome := HandleStarScan(store, message, env);
      case ToMarket => outcome := HandleCommodity(store, message, env);
      case ToOutfitting => outcome := HandleOutfitting(store, message, env);
      case Nowhere => outcome := Handled;
    }
  }

  // ----- Properties of the routing -----

  /** A sender whose header is well-formed. */
  predicate Sent(data: Doc)
  {
    var header := Get(data, "header");
    && header.Obj?
    && Get(header.fields, "softwareName").Str?
    && Get(header.fields, "softwareVersion").Str?
  }

  function SenderName(data: Doc): string
    requires Sent(data)
  {
    Get(Get(data, "header").fields, "softwareName").s
  }

  /** A journal message of a well-formed, allowed sender carrying the given event. */
  predicate JournalEvent(data: Doc, event: string)
  {
    && Sent(data) && SenderName(data) !in DeniedClients
    && Get(data, "$schemaRef") == Str(JournalSchema)
    && Get(data, "message").Obj?
    && Get(Get(data, "message").fields, "event") == Str(event)
  }

  /** A message of a well-formed, allowed sender under the given schema, with an object
   *  as its body. */
  predicate SchemaMessage(data: Doc, schema: string)
  {
    && Sent(data) && SenderName(data) !in DeniedClients
    && Get(data, "$schemaRef") == Str(schema)
    && Get(data, "message").Obj?
  }

  /** Each handler is reached exactly by its schema and event, with the message body. */
  lemma RouteToHandler(data: Doc)
    ensures Route(data).Done? && Route(data).value.0 != Nowhere ==>
      Route(data).value.1 == Get(data, "message").fields
    ensures (Route(data).Done? && Route(data).value.0 == ToArrival) <==> JournalEvent(data, "FSDJump")
    ensures (Route(data).Done? && Route(data).value.0 == ToDocked) <==> JournalEvent(data, "Docked")
    ensures (Route(data).Done? && Route(data).value.0 == ToBodyScan) <==>
      JournalEvent(data, "Scan") && Get(Get(data, "message").fields, "StellarMass") == Null
    ensures (Route(data).Done? && Route(data).value.0 == ToStarScan) <==>
      JournalEvent(data, "Scan") && Get(Get(data, "message").fields, "StellarMass") != Null
    ensures (Route(data).Done? && Route(data).value.0 == ToMarket) <==> SchemaMessage(data, CommoditySchema)
    ensures (Route(data).Done? && Route(data).value.0 == ToOutfitting) <==> SchemaMessage(data, OutfittingSchema)
  {
  }

  /** A message of a denied sender reaches no handler and changes nothing, whatever it
   *  carries. */
  lemma DeniedSenderIgnored(st: State, data: Doc, env: Env)
    requires Sent(data) && SenderName(data) in DeniedClients
    ensures MessageSpec(st, Ok(data), env) == Effect(st, Handled)
  {
  }

  /** Any other schema, and any other journal event, reaches no handler. */
  lemma OtherMessagesIgnored(st: State, data: Doc, env: Env)
    requires Sent(data)
    requires Get(data, "$schemaRef").Str?
    requires var schema := Get(data, "$schemaRef").s;
      || schema !in {JournalSchema, CommoditySchema, OutfittingSchema}
      || (&& schema == JournalSchema && Get(data, "message").Obj?
          && Get(Get(data, "message").fields, "event").Str?
          && Get(Get(data, "message").fields, "event").s !in {"FSDJump", "Docked", "Scan"})
    ensures MessageSpec(st, Ok(data), env) == Effect(st, Handled)
  {
  }

  /** Every stored document keeps carrying its row's id, whatever message arrives. */
  lemma MessageKeepsIdsEmbedded(st: State, decoded: Result<Doc>, env: Env)
    requires IdsEmbedded(st)
    ensures IdsEmbedded(MessageSpec(st, decoded, env).st)
  {
    if decoded.Ok? && Route(decoded.value).Done? {
      var (h, message) := Route(decoded.value).value;
      DispatchKeepsIdsEmbedded(st, h, message, env);
    }
  }

  lemma DispatchKeepsIdsEmbedded(st: State, h: Handler, message: Doc, env: Env)
    requires IdsEmbedded(st)
    ensures IdsEmbedded(Dispatch(st, h, message, env).st)
  {
    match h {
      case ToArrival => ArrivalKeepsIdsEmbedded(st, message, env);
      case ToDocked => DockedKeepsIdsEmbedded(st, message, env);
      case ToBodyScan => ScansKeepIdsEmbedded(st, message, env);
      case ToStarScan => ScansKeepIdsEmbedded(st, message, env);
      case ToMarket => MarketKeepsIdsEmbedded(st, message, env);
      case ToOutfitting => MarketKeepsIdsEmbedded(st, message, env);
      case Nowhere =>
    }
  }
}
