/** `HandleCommodity3Schema` (eddnlistener/eddnlistener.go:1267-1411, eddnlistener.go:791-935)
 *  and `HandleOutfitting2Schema` (eddnlistener/eddnlistener.go:1206-1265,
 *  eddnlistener.go:730-789): a station's market or outfitting as a commander saw it. Both
 *  find the station through the first system of the given name, and both replace their
 *  part of the station document wholesale when the message is newer than that part's own
 *  timestamp. Nothing is published. */
module Market {
  import opened Wrappers
  import opened Json
  import opened Translate
  import opened Tables
  import opened Store
  import opened Events

  /** The station a message is about: its system's id, its row, its id and the
   *  message's time. */
  datatype Target = Target(systemId: int, row: nat, stationId: int, time: int)

  /** The lookup both handlers share. A system that does not exist or a station that
   *  does not exist ends the handling quietly; `stationName` is asserted to be a string
   *  only once the system was found. */
  function ReachStation(st: State, message: Doc, env: Env): (r: Step<Target>)
    ensures r.Done? ==> r.value.row < |st.stations|
    ensures r.Done? ==> Get(message, "systemName").Str? && Get(message, "stationName").Str?
  {
    var name := Get(message, "systemName");
    if !name.Str? then Stop(Panicked("systemName is not a string"))
    else match FindFirstSystem(st.systems, name.s)
    case None => Stop(Handled)
    case Some(i) =>
      var stationName := Get(message, "stationName");
      if !stationName.Str? then Stop(Panicked("stationName is not a string"))
      else match Int(Get(st.systems[i].data, "id"))
      case Err(m) => Stop(Dropped(m))
      case Ok(systemId) =>
        match FindStation(st.stations, systemId, stationName.s)
        case None => Stop(Handled)
        case Some(j) =>
          match Int(Get(st.stations[j].data, "id"))
          case Err(m) => Stop(Dropped(m))
          case Ok(stationId) =>
            var ts := Get(message, "timestamp");
            if !ts.Str? then Stop(Panicked("timestamp is not a string"))
            else match env.parseTime(ts.s)
            case None => Stop(Dropped("timestamp does not parse"))
            case Some(t) => Done(Target(systemId, j, stationId, t))
  }

  /** The lookup, on the store. */
  method FindTarget(store: Store, message: Doc, env: Env) returns (r: Step<Target>)
    ensures r == ReachStation(store.View(), message, env)
  {
    var systemname := Get(message, "systemName");
    if !systemname.Str? {
      return Stop(Panicked("systemName is not a string"));
    }
    var found := FindFirstSystem(store.systems, systemname.s);
    if found.None? {
      return Stop(Handled);
    }
    var stationname := Get(message, "stationName");
    if !stationname.Str? {
      return Stop(Panicked("stationName is not a string"));
    }
    var systemId := Int(Get(store.systems[found.value].data, "id"));
    if systemId.Err? {
      return Stop(Dropped(systemId.msg));
    }
    var station := FindStation(store.stations, systemId.value, stationname.s);
    if station.None? {
      return Stop(Handled);
    }
    var stationId := Int(Get(store.stations[station.value].data, "id"));
    if stationId.Err? {
      return Stop(Dropped(stationId.msg));
    }
    var ts := Get(message, "timestamp");
    if !ts.Str? {
      return Stop(Panicked("timestamp is not a string"));
    }
    var messageTime := env.parseTime(ts.s);
    if messageTime.None? {
      return Stop(Dropped("timestamp does not parse"));
    }
    return Done(Target(systemId.value, station.value, stationId.value, messageTime.value));
  }

  // ----- Commodities -----

  /** A stock or demand bracket: an integral number is itself, a fractional one ends the
   *  handling, any string (the empty string is sent for "not normally, but now") counts
   *  as 3, and every other type as 0. */
  function Bracket(v: Value): (r: Step<int>)
    ensures v.Str? ==> r == Done(3)
    ensures !v.Str? && !v.Num? ==> r == Done(0)
    ensures v.Num? ==> (r.Done? <==> IsInteger(v.n)) && (r.Done? ==> r.value as real == v.n)
  {
    match v
    case Num(n) => if IsInteger(n) then Done(n.Floor) else Stop(Dropped("bracket is not an integer"))
    case Str(_) => Done(3)
    case _ => Done(0)
  }

  /** One direction of trade: with a positive bracket and a positive amount, the amount
   *  and the price are recorded under `amountOut` and `priceOut`. */
  function Offer(c: map<string, Value>, bracketKey: string, amountKey: string, priceKey: string,
                 amountOut: string, priceOut: string, entry: Doc): Step<Doc>
  {
    match Bracket(Get(c, bracketKey))
    case Stop(o) => Stop(o)
    case Done(b) =>
      if b <= 0 then Done(entry)
      else match Int(Get(c, amountKey))
      case Err(m) => Stop(Dropped(m))
      case Ok(amount) =>
        if amount <= 0 then Done(entry)
        else match Int(Get(c, priceKey))
        case Err(m) => Stop(Dropped(m))
        case Ok(price) => Done(entry[amountOut := IntValue(amount)][priceOut := IntValue(price)])
  }

  /** The API's id for a commodity name, -1 for a name it does not know. */
  function CommodityId(name: string): int
  {
    if name in CommodityIds then CommodityIds[name] else -1
  }

  /** One commodity of the message as stored: an object with a string `name`, or a
   *  panic. */
  function CommodityEntry(v: Value): Step<Doc>
  {
    if !v.Obj? then Stop(Panicked("commodity is not an object"))
    else
      var name := Get(v.fields, "name");
      if !name.Str? then Stop(Panicked("commodity name is not a string"))
      else
        var n := TranslateCommodity(name.s);
        var entry := map["name" := Str(n), "id" := IntValue(CommodityId(n))];
        match Offer(v.fields, "stockBracket", "stock", "buyPrice", "supply", "buy_price", entry)
        case Stop(o) => Stop(o)
        case Done(entry') =>
          Offer(v.fields, "demandBracket", "demand", "sellPrice", "demand", "sell_price", entry')
  }

  /** The whole list, element by element. */
  function Commodities(items: seq<Value>): Step<seq<Value>>
  {
    ConvertAll(items, CommodityEntry)
  }

  /** One direction of trade: with a positive bracket and a positive amount the entry
   *  gains the amount and the price as sent, otherwise it is unchanged. */
  lemma OfferCases(c: map<string, Value>, bracketKey: string, amountKey: string, priceKey: string,
                   amountOut: string, priceOut: string, entry: Doc)
    requires Offer(c, bracketKey, amountKey, priceKey, amountOut, priceOut, entry).Done?
    ensures var d := Offer(c, bracketKey, amountKey, priceKey, amountOut, priceOut, entry).value;
      var b := Bracket(Get(c, bracketKey));
      var amount := Int(Get(c, amountKey));
      && b.Done?
      && (b.value > 0 && amount.Ok? && amount.value > 0 ==>
            d == entry[amountOut := Get(c, amountKey)][priceOut := Get(c, priceKey)])
      && (!(b.value > 0 && amount.Ok? && amount.value > 0) ==> d == entry)
  {
  }

  /** An offer touches no key but its own two, and adds no other. */
  lemma OfferKeeps(c: map<string, Value>, bracketKey: string, amountKey: string, priceKey: string,
                   amountOut: string, priceOut: string, entry: Doc, k: string)
    requires Offer(c, bracketKey, amountKey, priceKey, amountOut, priceOut, entry).Done?
    requires k != amountOut && k != priceOut
    ensures var d := Offer(c, bracketKey, amountKey, priceKey, amountOut, priceOut, entry).value;
      (k in d <==> k in entry) && (k in entry ==> d[k] == entry[k])
  {
  }

  /** The commodity's stored name is its translated name, and its id the API's id for
   *  that name, or -1 (`CommodityId`). */
  lemma CommodityEntryName(v: Value)
    requires CommodityEntry(v).Done?
    ensures var d := CommodityEntry(v).value;
      var n := TranslateCommodity(Get(v.fields, "name").s);
      && v.Obj? && Get(v.fields, "name").Str?
      && Get(d, "name") == Str(n)
      && Get(d, "id") == IntValue(CommodityId(n))
  {
    var c := v.fields;
    var n := TranslateCommodity(Get(c, "name").s);
    var entry := map["name" := Str(n), "id" := IntValue(CommodityId(n))];
    assert |"name"| == 4 && |"supply"| == 6 && |"buy_price"| == 9 && |"demand"| == 6 && |"sell_price"| == 10;
    OfferKeeps(c, "stockBracket", "stock", "buyPrice", "supply", "buy_price", entry, "name");
    OfferKeeps(c, "stockBracket", "stock", "buyPrice", "supply", "buy_price", entry, "id");
    var entry' := Offer(c, "stockBracket", "stock", "buyPrice", "supply", "buy_price", entry).value;
    assert entry'["name"] == Str(n) && entry'["id"] == IntValue(CommodityId(n));
    OfferKeeps(c, "demandBracket", "demand", "sellPrice", "demand", "sell_price", entry', "name");
    OfferKeeps(c, "demandBracket", "demand", "sellPrice", "demand", "sell_price", entry', "id");
    assert CommodityEntry(v) == Offer(c, "demandBracket", "demand", "sellPrice", "demand", "sell_price", entry');
  }

  /** `supply` and `buy_price` are present exactly when the stock bracket and the stock
   *  are positive, and then hold the stock and the buying price as sent. */
  lemma CommodityEntrySupply(v: Value)
    requires CommodityEntry(v).Done?
    ensures var d := CommodityEntry(v).value;
      var c := v.fields;
      var b := Bracket(Get(c, "stockBracket"));
      && v.Obj? && b.Done?
      && ("supply" in d <==> b.value > 0 && Int(Get(c, "stock")).Ok? && Int(Get(c, "stock")).value > 0)
      && ("buy_price" in d <==> "supply" in d)
      && ("supply" in d ==> d["supply"] == Get(c, "stock") && d["buy_price"] == Get(c, "buyPrice"))
  {
    var c := v.fields;
    var entry := CommoditySteps(v);
    assert |"id"| == 2 && |"name"| == 4 && |"supply"| == 6 && |"buy_price"| == 9 && |"demand"| == 6 && |"sell_price"| == 10;
    OfferCases(c, "stockBracket", "stock", "buyPrice", "supply", "buy_price", entry);
    var entry' := Offer(c, "stockBracket", "stock", "buyPrice", "supply", "buy_price", entry).value;
    OfferKeeps(c, "demandBracket", "demand", "sellPrice", "demand", "sell_price", entry', "supply");
    OfferKeeps(c, "demandBracket", "demand", "sellPrice", "demand", "sell_price", entry', "buy_price");
  }

  /** A converted commodity is its named entry passed through both offers. */
  lemma CommoditySteps(v: Value) returns (entry: Doc)
    requires CommodityEntry(v).Done?
    ensures v.Obj? && Get(v.fields, "name").Str?
    ensures "supply" !in entry && "buy_price" !in entry && "demand" !in entry && "sell_price" !in entry
    ensures Offer(v.fields, "stockBracket", "stock", "buyPrice", "supply", "buy_price", entry).Done?
    ensures CommodityEntry(v) == Offer(v.fields, "demandBracket", "demand", "sellPrice", "demand", "sell_price",
      Offer(v.fields, "stockBracket", "stock", "buyPrice", "supply", "buy_price", entry).value)
  {
    var n := TranslateCommodity(Get(v.fields, "name").s);
    entry := map["name" := Str(n), "id" := IntValue(CommodityId(n))];
    EntryLacksOffers(n, CommodityId(n));
  }

  lemma EntryLacksOffers(n: string, id: int)
    ensures var entry := map["name" := Str(n), "id" := IntValue(id)];
      "supply" !in entry && "buy_price" !in entry && "demand" !in entry && "sell_price" !in entry
  {
    assert |"id"| == 2 && |"name"| == 4 && |"supply"| == 6 && |"buy_price"| == 9 && |"demand"| == 6 && |"sell_price"| == 10;
  }

  /** `demand` and `sell_price` are present exactly when the demand bracket and the
   *  demand are positive, and then hold the demand and the selling price as sent. */
  lemma CommodityEntryDemand(v: Value)
    requires CommodityEntry(v).Done?
    ensures var d := CommodityEntry(v).value;
      var c := v.fields;
      var b := Bracket(Get(c, "demandBracket"));
      && v.Obj? && b.Done?
      && ("sell_price" in d <==> b.value > 0 && Int(Get(c, "demand")).Ok? && Int(Get(c, "demand")).value > 0)
      && ("demand" in d <==> "sell_price" in d)
      && ("sell_price" in d ==> d["demand"] == Get(c, "demand") && d["sell_price"] == Get(c, "sellPrice"))
  {
    var c := v.fields;
    var entry := CommoditySteps(v);
    assert |"supply"| == 6 && |"buy_price"| == 9 && |"demand"| == 6 && |"sell_price"| == 10;
    OfferKeeps(c, "stockBracket", "stock", "buyPrice", "supply", "buy_price", entry, "demand");
    OfferKeeps(c, "stockBracket", "stock", "buyPrice", "supply", "buy_price", entry, "sell_price");
    var entry' := Offer(c, "stockBracket", "stock", "buyPrice", "supply", "buy_price", entry).value;
    OfferCases(c, "demandBracket", "demand", "sellPrice", "demand", "sell_price", entry');
  }

  /** A bracket of any type but number and string means nothing is offered in that
   *  direction. */
  lemma UntypedBracketOffersNothing(c: map<string, Value>, entry: Doc)
    requires var b := Get(c, "stockBracket"); !b.Num? && !b.Str?
    ensures Offer(c, "stockBracket", "stock", "buyPrice", "supply", "buy_price", entry) == Done(entry)
  {
  }

  /** The station after a market update. */
  function WithMarket(station: Doc, list: seq<Value>, now: int): Doc
  {
    station["commodities" := List(list)]["market_updated_at" := IntValue(now)]
  }

  /** What handling a commodity message does to the store. */
  function MarketSpec(st: State, message: Doc, env: Env): Effect
  {
    match ReachStation(st, message, env)
    case Stop(o) => Effect(st, o)
    case Done(tg) =>
      var station := st.stations[tg.row].data;
      if tg.time <= IntOr(Get(station, "market_updated_at"), 0) then Effect(st, Handled)
      else
        var commodities := Get(message, "commodities");
        if !commodities.List? then Effect(st, Panicked("commodities is not a list"))
        else match Commodities(commodities.items)
        case Stop(o) => Effect(st, o)
        case Done(list) =>
          Effect(UpdateStationSpec(st, tg.systemId, tg.stationId, WithMarket(station, list, env.now)),
                 Handled)
  }

  /** `HandleCommodity3Schema`. */
  method HandleCommodity(store: Store, message: Doc, env: Env) returns (outcome: Outcome)
    modifies store
    ensures Effect(store.View(), outcome) == MarketSpec(old(store.View()), message, env)
  {
    var target := FindTarget(store, message, env);
    if target.Stop? {
      return target.outcome;
    }
    var tg := target.value;
    var station := store.stations[tg.row].data;
    var updateTime := IntOr(Get(station, "market_updated_at"), 0);
    if tg.time <= updateTime {
      return Handled;
    }
    var commodities := Get(message, "commodities");
    if !commodities.List? {
      return Panicked("commodities is not a list");
    }
    var dbcommodities := ConvertEach(commodities.items, CommodityEntry);
    if dbcommodities.Stop? {
      return dbcommodities.outcome;
    }
    // Replace existing station commodities
    station := station["commodities" := List(dbcommodities.value)];
    station := station["market_updated_at" := IntValue(env.now)];
    store.UpdateStation(tg.systemId, tg.stationId, station);
    return Handled;
  }

  // ----- Outfitting -----

  /** The station after an outfitting update: a missing `modules` is stored as null. */
  function WithOutfitting(station: Doc, message: Doc, now: int): Doc
  {
    station["selling_modules" := Get(message, "modules")]["outfitting_updated_at" := IntValue(now)]
  }

  /** What handling an outfitting message does to the store. */
  function OutfittingSpec(st: State, message: Doc, env: Env): Effect
  {
    match ReachStation(st, message, env)
    case Stop(o) => Effect(st, o)
    case Done(tg) =>
      var station := st.stations[tg.row].data;
      if tg.time <= IntOr(Get(station, "outfitting_updated_at"), 0) then Effect(st, Handled)
      else Effect(UpdateStationSpec(st, tg.systemId, tg.stationId, WithOutfitting(station, message, env.now)),
                  Handled)
  }

  /** `HandleOutfitting2Schema`. */
  method HandleOutfitting(store: Store, message: Doc, env: Env) returns (outcome: Outcome)
    modifies store
    ensures Effect(store.View(), outcome) == OutfittingSpec(old(store.View()), message, env)
  {
    var target := FindTarget(store, message, env);
    if target.Stop? {
      return target.outcome;
    }
    var tg := target.value;
    var station := store.stations[tg.row].data;
    var updateTime := IntOr(Get(station, "outfitting_updated_at"), 0);
    if tg.time <= updateTime {
      return Handled;
    }
    station := station["selling_modules" := Get(message, "modules")];
    // Update timestamp
    station := station["outfitting_updated_at" := IntValue(env.now)];
    store.UpdateStation(tg.systemId, tg.stationId, station);
    return Handled;
  }

  // ----- Properties -----

  /** The station a message reaches is the one the lookup names: with every document
   *  carrying its id, the UPDATE addresses row `tg.row`. */
  lemma ReachedRow(st: State, message: Doc, env: Env)
    requires IdsEmbedded(st) && ReachStation(st, message, env).Done?
    ensures var tg := ReachStation(st, message, env).value;
      st.stations[tg.row].id == tg.stationId && st.stations[tg.row].systemId == tg.systemId
      && st.stations[tg.row].name == Get(message, "stationName").s
  {
    var tg := ReachStation(st, message, env).value;
    assert Int(Get(st.stations[tg.row].data, "id")) == Ok(st.stations[tg.row].id);
  }

  /** Market and outfitting messages only ever rewrite station documents: no system, body
   *  or station is added, no row moves, and nothing is published. */
  lemma StationOnlyUpdates(st: State, message: Doc, env: Env)
    ensures var e := MarketSpec(st, message, env);
      e.st.systems == st.systems && e.st.bodies == st.bodies && e.st.published == st.published
      && |e.st.stations| == |st.stations|
      && forall k :: 0 <= k < |st.stations| ==> e.st.stations[k] == st.stations[k].(data := e.st.stations[k].data)
    ensures var e := OutfittingSpec(st, message, env);
      e.st.systems == st.systems && e.st.bodies == st.bodies && e.st.published == st.published
      && |e.st.stations| == |st.stations|
      && forall k :: 0 <= k < |st.stations| ==> e.st.stations[k] == st.stations[k].(data := e.st.stations[k].data)
  {
  }

  /** A market update happens only for a message strictly newer than the station's
   *  `market_updated_at` (0 when missing); it then replaces `commodities` with the
   *  converted list, stamps the clock and keeps every other key of the station. */
  lemma MarketWrite(st: State, message: Doc, env: Env)
    requires IdsEmbedded(st)
    ensures var e := MarketSpec(st, message, env);
      e.st != st ==>
        && ReachStation(st, message, env).Done?
        && var tg := ReachStation(st, message, env).value;
           var station := st.stations[tg.row].data;
           && tg.time > IntOr(Get(station, "market_updated_at"), 0)
           && Get(message, "commodities").List?
           && var list := Commodities(Get(message, "commodities").items);
              && list.Done?
              && var doc := e.st.stations[tg.row].data;
                 && doc["commodities"] == List(list.value)
                 && doc["market_updated_at"] == IntValue(env.now)
                 && (forall k :: k != "commodities" && k != "market_updated_at" ==> Get(doc, k) == Get(station, k))
                 && forall r :: 0 <= r < |st.stations| && st.stations[r].id != st.stations[tg.row].id ==>
                      e.st.stations[r] == st.stations[r]
  {
    if MarketSpec(st, message, env).st != st {
      ReachedRow(st, message, env);
    }
  }

  /** An outfitting update happens only for a message strictly newer than the station's
   *  `outfitting_updated_at` (0 when missing) and changes only `selling_modules` and
   *  `outfitting_updated_at`. */
  lemma OutfittingWrite(st: State, message: Doc, env: Env)
    requires IdsEmbedded(st)
    ensures var e := OutfittingSpec(st, message, env);
      e.st != st ==>
        && ReachStation(st, message, env).Done?
        && var tg := ReachStation(st, message, env).value;
           var station := st.stations[tg.row].data;
           && tg.time > IntOr(Get(station, "outfitting_updated_at"), 0)
           && var doc := e.st.stations[tg.row].data;
              && doc["selling_modules"] == Get(message, "modules")
              && doc["outfitting_updated_at"] == IntValue(env.now)
              && (forall k :: k != "selling_modules" && k != "outfitting_updated_at" ==> Get(doc, k) == Get(station, k))
              && forall r :: 0 <= r < |st.stations| && st.stations[r].id != st.stations[tg.row].id ==>
                   e.st.stations[r] == st.stations[r]
  {
    if OutfittingSpec(st, message, env).st != st {
      ReachedRow(st, message, env);
    }
  }

  /** Both handlers keep every stored document carrying its row's id. */
  lemma MarketKeepsIdsEmbedded(st: State, message: Doc, env: Env)
    requires IdsEmbedded(st)
    ensures IdsEmbedded(MarketSpec(st, message, env).st)
    ensures IdsEmbedded(OutfittingSpec(st, message, env).st)
  {
    var r := ReachStation(st, message, env);
    if r.Done? {
      var tg := r.value;
      var station := st.stations[tg.row].data;
      assert Get(station, "id") == IntValue(tg.stationId);
      var commodities := Get(message, "commodities");
      if commodities.List? && Commodities(commodities.items).Done? {
        var list := Commodities(commodities.items).value;
        UpdateKeepsIdsEmbedded(st, tg.systemId, tg.stationId, WithMarket(station, list, env.now));
      }
      UpdateKeepsIdsEmbedded(st, tg.systemId, tg.stationId, WithOutfitting(station, message, env.now));
    }
  }

  /** The lookup finds the same station again after a rewrite that keeps the systems,
   *  every station's searched columns and the found station's `"id"`. */
  lemma ReachStable(st: State, st': State, message: Doc, env: Env)
    requires ReachStation(st, message, env).Done?
    requires st'.systems == st.systems && |st'.stations| == |st.stations|
    requires forall k :: 0 <= k < |st.stations| ==> st'.stations[k] == st.stations[k].(data := st'.stations[k].data)
    requires var j := ReachStation(st, message, env).value.row;
      Get(st'.stations[j].data, "id") == Get(st.stations[j].data, "id")
    ensures ReachStation(st', message, env) == ReachStation(st, message, env)
  {
    var tg := ReachStation(st, message, env).value;
    var stationName := Get(message, "stationName").s;
    var matches := (row: StationRow) => row.systemId == tg.systemId && row.name == stationName;
    FirstIndexSameKeys(st.stations, st'.stations, matches);
  }

  /** Handling the same market message twice is handling it once, whatever the clock
   *  says: the station then already holds the converted list and the clock's stamp, so
   *  the second pass either stops at the time gate or rewrites the same document. */
  lemma MarketReplayIsNoop(st: State, message: Doc, env: Env)
    requires IdsEmbedded(st)
    ensures var e := MarketSpec(st, message, env);
      MarketSpec(e.st, message, env).st == e.st
  {
    var e := MarketSpec(st, message, env);
    if e.st != st {
      MarketWrite(st, message, env);
      StationOnlyUpdates(st, message, env);
      ReachStable(st, e.st, message, env);
      MarketRewrite(st, message, env);
    }
  }

  /** The second pass of a market message that was written rewrites the written
   *  document. */
  lemma MarketRewrite(st: State, message: Doc, env: Env)
    requires IdsEmbedded(st) && MarketSpec(st, message, env).st != st
    requires ReachStation(MarketSpec(st, message, env).st, message, env) == ReachStation(st, message, env)
    ensures var e := MarketSpec(st, message, env);
      MarketSpec(e.st, message, env).st == e.st
  {
    var e := MarketSpec(st, message, env);
    var tg := ReachStation(st, message, env).value;
    ReachedRow(st, message, env);
    var list := Commodities(Get(message, "commodities").items).value;
    var doc := WithMarket(st.stations[tg.row].data, list, env.now);
    MarketAt(st, message, env, tg, list);
    assert e.st.stations[tg.row].data == doc;
    WithMarketTwice(st.stations[tg.row].data, list, env.now);
    UpdateStationTwice(st, tg.systemId, tg.stationId, doc);
    if tg.time > IntOr(Get(doc, "market_updated_at"), 0) {
      MarketAt(e.st, message, env, tg, list);
    }
  }

  /** The market path when the time gate opens and the list converts. */
  lemma MarketAt(st: State, message: Doc, env: Env, tg: Target, list: seq<Value>)
    requires ReachStation(st, message, env) == Done(tg)
    requires Get(message, "commodities").List? && Commodities(Get(message, "commodities").items) == Done(list)
    requires tg.time > IntOr(Get(st.stations[tg.row].data, "market_updated_at"), 0)
    ensures MarketSpec(st, message, env) ==
      Effect(UpdateStationSpec(st, tg.systemId, tg.stationId, WithMarket(st.stations[tg.row].data, list, env.now)),
             Handled)
  {
  }

  lemma WithMarketTwice(station: Doc, list: seq<Value>, now: int)
    ensures var doc := WithMarket(station, list, now);
      WithMarket(doc, list, now) == doc
  {
  }

  /** The same for outfitting messages. */
  lemma OutfittingReplayIsNoop(st: State, message: Doc, env: Env)
    requires IdsEmbedded(st)
    ensures var e := OutfittingSpec(st, message, env);
      OutfittingSpec(e.st, message, env).st == e.st
  {
    var e := OutfittingSpec(st, message, env);
    if e.st != st {
      OutfittingWrite(st, message, env);
      StationOnlyUpdates(st, message, env);
      ReachStable(st, e.st, message, env);
      OutfittingRewrite(st, message, env);
    }
  }

  lemma OutfittingRewrite(st: State, message: Doc, env: Env)
    requires IdsEmbedded(st) && OutfittingSpec(st, message, env).st != st
    requires ReachStation(OutfittingSpec(st, message, env).st, message, env) == ReachStation(st, message, env)
    ensures var e := OutfittingSpec(st, message, env);
      OutfittingSpec(e.st, message, env).st == e.st
  {
    var e := OutfittingSpec(st, message, env);
    var tg := ReachStation(st, message, env).value;
    ReachedRow(st, message, env);
    var doc := WithOutfitting(st.stations[tg.row].data, message, env.now);
    assert e.st == UpdateStationSpec(st, tg.systemId, tg.stationId, doc);
    assert e.st.stations[tg.row].data == doc;
    assert WithOutfitting(doc, message, env.now) == doc;
    UpdateStationTwice(st, tg.systemId, tg.stationId, doc);
  }
}
