# EDDP listener and importers, modelled in Dafny

EDDP keeps a database of Elite: Dangerous star systems, bodies and stations. This
project models the two parts of it that write to that database.

- **The EDDN listener.** It receives the messages players' tools publish on EDDN. It
  drops the senders known to send bad timestamps, routes each journal event or schema
  to a handler, and updates the database:
  - an `FSDJump` creates a system or reconciles a populated one;
  - a `Docked` event reconciles a known station;
  - a body or star `Scan` creates or rewrites a body;
  - a commodity or outfitting message replaces a station's market or outfitting.

  The reconcilers publish what changed on `eddp.delta.system` and `eddp.delta.station`.
- **The three bulk importers.** They load the systems CSV dump, the stations dump (with
  the market listings, factions and commodity definitions it refers to) and the bodies
  dump into empty tables.

Every handler is a `method` on the `Store` class, which holds the three tables and the
published deltas. Each handler is proved against a specification function of the
previous state: `ensures Effect(store.View(), outcome) == XSpec(old(store.View()), ...)`.
The properties are lemmas about those functions:

- when a row is written, and what it then holds;
- that only the fields the source names are touched;
- that every stored document keeps carrying its row's id (`Store.IdsEmbedded`);
- that handling a message twice is handling it once.

The importers are loops over records. Each is proved equal to a function built on
`Batches.Collect`: a record is inserted, skipped, or ends the import before the commit.

The listener exists twice in the repository. `eddnlistener.go` is the same code as
`eddnlistener/eddnlistener.go` shifted up by 476 lines from line 504 on. Only the inline
copy carries the lookup tables, so the table below cites that copy. For example,
`eddnlistener/eddnlistener.go:1413` is `eddnlistener.go:937`.

Behaviour kept as written:

- **Terraforming state names.** The body scan stores the journal's `Terraforming` as
  id 3 "Terraforming completed" and `Terraformed` as id 4 "Being terraformed". The two
  names are the wrong way round with respect to the journal's meaning. The model keeps
  the source's mapping, and `Scan.TerraformStateIds` states it as it is.
- **Listing keys.** The stations importer keys market listings by the station id text
  as it appears in the listings CSV. It looks them up by `strconv.Itoa` of the decoded
  station id. A listing whose station id is written differently (for example `007`) is
  never spliced into a station. `ImportStations.StationRecordOf` keeps this lookup.
- **Non-string controlling faction.** A Docked event's `StationFaction` is neither
  asserted to be a string nor translated. A non-string faction is stored, and every
  later Docked event at that station then panics in `JsonString`
  (`Docked.NonStringFactionPanics`).

## Model

Several lemmas that state the shape of a document or a path through a
handler (for example `Docked.DockedAtStation`) have an empty body: they follow directly
from the specification functions they mention. The proof work lies in the lemmas about
round trips, replays and invariants, and in the loop invariants of the
`Store` methods and the importers.

| member | source | states |
|---|---|---|
| Json.Float | eddnlistener/eddnlistener.go:1818-1827 | succeeds exactly on a number, with its value; nil gives "Missing value" |
| Json.Int | eddnlistener/eddnlistener.go:1829-1838 | succeeds exactly on an integral number, with its value; nil gives "Missing value" |
| Json.IntOr | eddnlistener/eddnlistener.go:1840-1853 | the value of an integral number; the default for nil, other types and fractional numbers |
| Json.IntOrIsIntWithDefault | eddnlistener/eddnlistener.go:1829-1853 | `IntOr` is `Int` with its error replaced by the default |
| Json.IntOfIntValue | eddnlistener/eddnlistener.go:1829-1838 | every integer written as a JSON number reads back through `Int` |
| Json.JsonString | eddnlistener/eddnlistener.go:1596-1601 | nil reads as "", a string as itself; fails (the type assertion) exactly on any other type |
| Coord.FixCoordOnGrid | eddnlistener/eddnlistener.go:1811-1816 | the snapped coordinate is a multiple of 1/32 |
| Coord.FixCoordNearest | eddnlistener/eddnlistener.go:1811-1816 | the snapped coordinate is within 1/64 of the input |
| Coord.FixCoordOdd | eddnlistener/eddnlistener.go:1811-1816 | snapping a negated coordinate negates the result |
| Coord.FixCoordFixesGrid | eddnlistener/eddnlistener.go:1811-1816 | a grid point is left where it is |
| Coord.FixCoordIdempotent | eddnlistener/eddnlistener.go:1811-1816 | snapping twice is snapping once |
| Coord.FixCoordHalfAwayFromZero | eddnlistener/eddnlistener.go:1811-1816 | a point halfway between two grid points goes to the one farther from zero |
| Text.LowerAllProperties | eddnlistener/eddnlistener.go:1607 | lower-casing leaves no capital letter, changes nothing without one, and is idempotent |
| Text.Remove | eddnlistener/eddnlistener.go:1607 | `strings.Replace(s, c, "", -1)`: no `c` remains; every other character is kept with its multiplicity |
| Text.IndexOf | eddnlistener/eddnlistener.go:836-852 | the first position at which the pattern occurs, or none when it never does |
| Text.ReplaceFirstAt | eddnlistener/eddnlistener.go:836-852 | cutting the first occurrence of `pat` out of `a + pat + b` leaves `a + b` |
| Text.NatToString | importstations.go:146 | decimal digits without a leading zero, whose value is the number |
| Text.AtoiOfItoa | importstations.go:110-146 | `Atoi` reads back what `Itoa` writes |
| Text.ItoaInjective | importstations.go:258 | distinct ids have distinct `Itoa` texts |
| Text.SpliceMember | eddnlistener/eddnlistener.go:1740-1744 | the splice keeps the text before the closing brace, then holds exactly `,"key":text`, and ends with `}` |
| Text.SpliceRendered | eddnlistener/eddnlistener.go:1740-1744 | splicing a member into a rendered non-empty object renders the object with that member appended |
| Translate.KeyIsKey | eddnlistener/eddnlistener.go:1603-1681 | a normalised key is lower case, with no `$` or `;`, and no space for materials and commodities |
| Translate.KeyOfKey | eddnlistener/eddnlistener.go:1603-1681 | a normalised string is its own key |
| Translate.KeyIdempotent | eddnlistener/eddnlistener.go:1603-1681 | normalising twice is normalising once |
| Translate.KeyOfSymbol | eddnlistener/eddnlistener.go:1603-1681 | the journal symbol `$key;` normalises to `key` |
| Translate.LookupCases | eddnlistener/eddnlistener.go:1603-1681 | "" becomes "None"; a string whose key is in the table becomes the table's name; any other string is handed back unchanged |
| Translate.LookupSeesOnlyKey | eddnlistener/eddnlistener.go:1603-1681 | two non-empty spellings with the same known key translate alike |
| Translate.LookupRange | eddnlistener/eddnlistener.go:1603-1681 | every result is "None", the input, or one of the table's names |
| Translate.LookupReachesEveryEntry | eddnlistener/eddnlistener.go:1603-1681 | every table entry is reached by its bare key and by its `$key;` symbol |
| Translate.IndependentAnyCase | eddnlistener/eddnlistener.go:1613-1621 | any capitalisation of `faction_independent` translates to `Independent` |
| Translate.AgricultureExample | eddnlistener/eddnlistener.go:1623-1631 | `$economy_agri;` translates to `Agriculture` |
| Translate.IndependentExample | eddnlistener/eddnlistener.go:1039-1044 | the Docked default allegiance `Faction_Independent` translates to `Independent` |
| Translate.LimpetsExample | eddnlistener/eddnlistener.go:1673-1681 | the commodity `drones` translates to `Limpets` |
| Volcanism.DecomposeVolcanismText | eddnlistener/eddnlistener.go:833-855 | the journal's wording of amount, one-word composition and kind is taken apart into those three, the composition translated |
| Volcanism.MajorRockyMagmaExample | eddnlistener/eddnlistener.go:833-855 | `major rocky magma volcanism` is stored as Magma, Major, Silicate |
| Volcanism.RockyIsSilicate | eddnlistener/eddnlistener.go:46-57 | the volcanism table translates `rocky` to `Silicate` |
| Store.FirstIndex | eddnlistener/eddnlistener.go:1683-1730 | the first row satisfying the query, as `LIMIT 1` or `QueryRow` returns it, or none when no row does |
| Store.MaxId | eddnlistener/eddnlistener.go:1735 | `max(id)` is absent (NULL) exactly for an empty table, is an id of the table, and is at least every id |
| Store.NextIdFresh | eddnlistener/eddnlistener.go:1732-1738 | an id is allocated exactly when the table is not empty, and it is larger than every id in the table |
| Store.RetryInsert | eddnlistener/eddnlistener.go:1748-1761 | at most 5 attempts, stopping at the first success; the result is nil exactly when some attempt succeeded |
| Store.InsertKeepsIdsEmbedded | eddnlistener/eddnlistener.go:1732-1799 | the id splice makes an inserted document carry its row's id |
| Store.UpdateKeepsIdsEmbedded | eddnlistener/eddnlistener.go:1764-1809 | an update with a document carrying the row's id keeps every document carrying its id |
| Store.InsertSystemAppends | eddnlistener/eddnlistener.go:1732-1762 | a successful insert appends one row whose id is above every existing id, and changes nothing else |
| Store.InsertIntoEmptyFails | eddnlistener/eddnlistener.go:1732-1738 | an insert into an empty table changes nothing |
| Store.Store.InsertSystem | eddnlistener/eddnlistener.go:1732-1762 | the new state is `InsertSystemSpec`'s; the error is nil exactly when an id was allocated and some attempt succeeded |
| Store.Store.InsertBody | eddnlistener/eddnlistener.go:1769-1799 | the new state is `InsertBodySpec`'s; the error is nil exactly when an id was allocated and some attempt succeeded |
| Store.Store.UpdateSystem | eddnlistener/eddnlistener.go:1764-1767 | every system row with the id gets the document |
| Store.Store.UpdateBody | eddnlistener/eddnlistener.go:1801-1804 | every body row with the id gets the document |
| Store.Store.UpdateStation | eddnlistener/eddnlistener.go:1806-1809 | every station row with the system id and id gets the document |
| Store.Store.Publish | eddnlistener/eddnlistener.go:1589 | the delta is appended to what was published |
| Events.StarPosSnapped | eddnlistener/eddnlistener.go:1446-1455 | a star position that was read comes from three numbers, each snapped by `fixCoord`, and lies on the 1/32 grid |
| Events.ChangeCases | eddnlistener/eddnlistener.go:1509-1517 | a field's old and new values enter the delta exactly when it changed from a non-empty stored value |
| Events.CompareField | eddnlistener/eddnlistener.go:1509-1557 | one comparison adds that field's change to the delta, and an update becomes required exactly when the values differ |
| Events.ConvertEach | eddnlistener/eddnlistener.go:1313-1394 | the element-by-element loop computes `ConvertAll` |
| Events.StopPropagates | eddnlistener/eddnlistener.go:1313-1394 | a prefix whose conversion ends the handling ends it for the whole list, with the same outcome |
| Events.ConvertAllDoneIff | eddnlistener/eddnlistener.go:1313-1394 | a list converts exactly when every element does |
| Events.ConvertAllElementwise | eddnlistener/eddnlistener.go:1313-1394 | the converted list has the input's length, and its k-th element is the k-th input converted |
| Arrival.HandleFSDJump | eddnlistener/eddnlistener.go:1413-1594 | the new store and outcome are `ArrivalSpec`'s |
| Arrival.CreateSystem | eddnlistener/eddnlistener.go:1457-1481 | the create path inserts the new system's document with the snapped position; it is handled exactly when an id was allocated and an attempt succeeded |
| Arrival.CompareProfiles | eddnlistener/eddnlistener.go:1504-1557 | the delta is `ProfileDelta`, and an update is required exactly when the profiles differ |
| Arrival.ReconcileSystem | eddnlistener/eddnlistener.go:1483-1590 | the update path's new store and outcome are `KnownSystemSpec`'s |
| Arrival.WithProfileShape | eddnlistener/eddnlistener.go:1559-1566 | the write sets the five fields and `updated_at`, keeps every other key, and reads back as the event's profile |
| Arrival.ProfileDeltaEntry | eddnlistener/eddnlistener.go:1509-1557 | the delta holds a field's old and new values exactly when it changed from a non-empty stored value |
| Arrival.ProfileDeltaKeys | eddnlistener/eddnlistener.go:1504-1557 | the delta has no key but the ten old/new keys |
| Arrival.NewSystemShape | eddnlistener/eddnlistener.go:1460-1472 | a created system is not populated, is stamped with the clock, and carries the event's name, position and profile |
| Arrival.UnseenSystemCreated | eddnlistener/eddnlistener.go:1457-1481 | an unseen system is inserted and nothing is published; when the insert cannot happen the store is unchanged |
| Arrival.KnownSystemWrittenOnlyWhen | eddnlistener/eddnlistener.go:1492-1559 | a known system is written only when the event is strictly newer than its `updated_at`, it is populated, and one of the five fields differs |
| Arrival.KnownSystemWrite | eddnlistener/eddnlistener.go:1559-1589 | when written, the row gets the event's profile and the clock, every row keeps its searched columns, rows of other ids are unchanged, and one delta is published |
| Arrival.ArrivalKeepsIdsEmbedded | eddnlistener/eddnlistener.go:1413-1594 | handling an arrival keeps every stored document carrying its row's id |
| Arrival.ArrivalReplayIsNoop | eddnlistener/eddnlistener.go:1492-1566 | handling the same arrival twice is handling it once |
| Docked.HandleDocked | eddnlistener/eddnlistener.go:1030-1204 | the new store and outcome are `DockedSpec`'s |
| Docked.CompareStationFacts | eddnlistener/eddnlistener.go:1113-1166 | the delta is `StationDelta`, and an update is required exactly when the facts differ |
| Docked.RefreshStation | eddnlistener/eddnlistener.go:1104-1200 | the station update path's new store and outcome are `StationRefreshSpec`'s |
| Docked.EventFactsDefaults | eddnlistener/eddnlistener.go:1034-1062 | a missing allegiance is `Independent`, a missing faction "", and the other missing facts "None" |
| Docked.WithStationFactsShape | eddnlistener/eddnlistener.go:1168-1175 | the written facts read back as the event's when the faction is a string; a non-string faction no longer reads back |
| Docked.NonStringFactionPanics | eddnlistener/eddnlistener.go:1148 | a stored non-string controlling faction makes the update path panic, whatever the event says |
| Docked.DockedTouchesOnlyStations | eddnlistener/eddnlistener.go:1030-1204 | a Docked event never changes systems or bodies |
| Docked.DockedWrittenOnlyWhen | eddnlistener/eddnlistener.go:1088-1168 | a station is written only when the event is strictly newer than the system's `updated_at`, the station is known, and one fact differs |
| Docked.StationWrite | eddnlistener/eddnlistener.go:1168-1199 | when written, the station row gets the event's facts and the clock, stations of other ids are unchanged, and one delta is published |
| Docked.DockedKeepsIdsEmbedded | eddnlistener/eddnlistener.go:1030-1204 | handling a Docked event keeps every stored document carrying its row's id |
| Docked.DockedReplayIsNoop | eddnlistener/eddnlistener.go:1088-1175 | handling the same Docked event twice is handling it once (a non-string faction panics before any write) |
| Market.ReachStation | eddnlistener/eddnlistener.go:1268-1300 | a station that was found is a row of the stations table, and the message's system and station names are strings |
| Market.FindTarget | eddnlistener/eddnlistener.go:1268-1300 | the lookup on the store computes `ReachStation` |
| Market.Bracket | eddnlistener/eddnlistener.go:1334-1348 | an integral number is itself, a fractional one ends the handling, any string is 3, anything else 0 |
| Market.OfferCases | eddnlistener/eddnlistener.go:1349-1362 | with a positive bracket and a positive amount the entry gains the amount and the price; otherwise it is unchanged |
| Market.OfferKeeps | eddnlistener/eddnlistener.go:1349-1362 | an offer touches no key but its own two |
| Market.CommodityEntryName | eddnlistener/eddnlistener.go:1320-1331 | the stored name is the translated name, and the id is the API's id for it or -1 |
| Market.CommodityEntrySupply | eddnlistener/eddnlistener.go:1333-1362 | `supply` and `buy_price` are present exactly when the stock bracket and the stock are positive, and hold the values sent |
| Market.CommodityEntryDemand | eddnlistener/eddnlistener.go:1363-1392 | `demand` and `sell_price` are present exactly when the demand bracket and the demand are positive, and hold the values sent |
| Market.UntypedBracketOffersNothing | eddnlistener/eddnlistener.go:1346-1348 | a bracket that is neither a number nor a string offers nothing |
| Market.HandleCommodity | eddnlistener/eddnlistener.go:1267-1411 | the new store and outcome are `MarketSpec`'s |
| Market.HandleOutfitting | eddnlistener/eddnlistener.go:1206-1265 | the new store and outcome are `OutfittingSpec`'s |
| Market.ReachedRow | eddnlistener/eddnlistener.go:1297-1402 | with every document carrying its id, the row the lookup found has the station's id, its system's id and the message's station name, which the UPDATE addresses |
| Market.StationOnlyUpdates | eddnlistener/eddnlistener.go:1206-1411 | market and outfitting messages only rewrite station documents: no row is added or moved and nothing is published |
| Market.MarketWrite | eddnlistener/eddnlistener.go:1302-1402 | a market update happens only for a message newer than `market_updated_at`; it replaces `commodities`, stamps the clock, keeps every other key and leaves other station rows unchanged |
| Market.OutfittingWrite | eddnlistener/eddnlistener.go:1241-1256 | an outfitting update happens only for a message newer than `outfitting_updated_at` and changes only `selling_modules` and that stamp of that one station row |
| Market.MarketKeepsIdsEmbedded | eddnlistener/eddnlistener.go:1206-1411 | both handlers keep every stored document carrying its row's id |
| Market.MarketReplayIsNoop | eddnlistener/eddnlistener.go:1302-1402 | handling the same market message twice is handling it once |
| Market.OutfittingReplayIsNoop | eddnlistener/eddnlistener.go:1241-1256 | handling the same outfitting message twice is handling it once |
| Scan.ReachBody | eddnlistener/eddnlistener.go:646-672 | a body that was found is a row of the bodies table |
| Scan.FindBodyTarget | eddnlistener/eddnlistener.go:646-672 | the lookup on the store computes `ReachBody` |
| Scan.BuildPlanet | eddnlistener/eddnlistener.go:674-856 | the field-by-field body document is `PlanetDoc` |
| Scan.BuildStar | eddnlistener/eddnlistener.go:927-995 | the field-by-field star document is `StarDoc` |
| Scan.SaveBody | eddnlistener/eddnlistener.go:858-878 | create or update computes `StoreBody` |
| Scan.HandleBodyScan | eddnlistener/eddnlistener.go:631-882 | the new store and outcome are `BodyScanSpec`'s |
| Scan.HandleStarScan | eddnlistener/eddnlistener.go:884-1028 | the new store and outcome are `StarScanSpec`'s |
| Scan.PlanetDocOverlay | eddnlistener/eddnlistener.go:674-856 | the body document is the stored one with fields drawn from the event laid over it |
| Scan.StarDocOverlay | eddnlistener/eddnlistener.go:927-995 | the star document is the stored one with fields drawn from the event laid over it |
| Scan.PlanetDocKeys | eddnlistener/eddnlistener.go:674-856 | a body scan writes only keys of `PlanetKeys` |
| Scan.StarDocKeys | eddnlistener/eddnlistener.go:927-995 | a star scan writes only keys of `StarKeys` |
| Scan.IdAndCreationNotWritten | eddnlistener/eddnlistener.go:664-674 | neither scan overwrites `id` or `created_at` |
| Scan.BodyScanIsScanWrite | eddnlistener/eddnlistener.go:631-882 | a body scan is one scan write of the planet fields, or no change when they cannot be built |
| Scan.StarScanIsScanWrite | eddnlistener/eddnlistener.go:884-1028 | a star scan is one scan write of the star fields |
| Scan.ScanWriteReplay | eddnlistener/eddnlistener.go:858-878 | writing the same fields twice is writing them once |
| Scan.ScanWriteKeepsIdsEmbedded | eddnlistener/eddnlistener.go:858-878 | a scan write keeps every stored document carrying its row's id |
| Scan.ScanWriteShape | eddnlistener/eddnlistener.go:646-878 | a scan write touches only the bodies table, and writes nothing unless the system is known |
| Scan.ScanWriteUpdates | eddnlistener/eddnlistener.go:864-872 | a known body gets its stored document with the fields laid over it; other bodies are kept |
| Scan.ScanWriteInserts | eddnlistener/eddnlistener.go:873-877 | a new body is appended with this message's creation time, the fields and its new id |
| Scan.BodyScanReplayIsNoop | eddnlistener/eddnlistener.go:631-882 | receiving the same body scan twice stores what receiving it once does |
| Scan.StarScanReplayIsNoop | eddnlistener/eddnlistener.go:884-1028 | receiving the same star scan twice stores what receiving it once does |
| Scan.ScansKeepIdsEmbedded | eddnlistener/eddnlistener.go:631-1028 | both scan handlers keep every stored document carrying its row's id |
| Scan.WithClassCases | eddnlistener/eddnlistener.go:768-832 | each name of a classification chain stores its own id and name; anything else leaves the document as it is |
| Scan.TerraformStatesDistinct | eddnlistener/eddnlistener.go:768-781 | no terraforming state appears twice in the chain |
| Scan.PlanetClassesDistinct | eddnlistener/eddnlistener.go:783-832 | no planet class appears twice in the chain |
| Scan.TerraformStateIds | eddnlistener/eddnlistener.go:768-781 | "", Terraformable, Terraforming and Terraformed are stored as ids 1 to 4 with the source's names; nil sets nothing |
| Scan.PlanetClassIds | eddnlistener/eddnlistener.go:783-832 | each of the 16 planet classes gets type id 21 plus its place in the chain and its name; an unknown class sets nothing |
| Scan.MaterialEntryCases | eddnlistener/eddnlistener.go:714-724 | a material is stored exactly when it is an object with a string name: the translated name, and the share when the percentage is a number |
| Scan.WithMaterialsCases | eddnlistener/eddnlistener.go:705-730 | only a list replaces `materials`, converted element for element; one malformed material ends the handling |
| Scan.WithVolcanismSkips | eddnlistener/eddnlistener.go:833-834 | nil, "" and "No volcanism" are skipped; a non-string panics |
| Scan.VolcanismStored | eddnlistener/eddnlistener.go:833-855 | a volcanism in the journal's wording is stored under `volcanism` as the object of its kind, amount and translated composition, the rest of the document kept |
| Scan.VolcanismValueFields | eddnlistener/eddnlistener.go:835-855 | the stored volcanism object holds the composition, and the type and the amount exactly when they were found, as strings |
| Scan.StarDocFields | eddnlistener/eddnlistener.go:944-990 | a star is the main star exactly when its distance is zero or not a number; its group, name, class and radius are the event's |
| Listener.ClientAllowed | eddnlistener/eddnlistener.go:602-630 | a sender is allowed exactly when it is not one of the five named in the source |
| Listener.HandleMessage | eddnlistener/eddnlistener.go:563-600 | the new store and outcome are `MessageSpec`'s |
| Listener.RouteToHandler | eddnlistener/eddnlistener.go:573-599 | each handler is reached exactly by its schema and event (a scan by whether it has a stellar mass), with the message body |
| Listener.DeniedSenderIgnored | eddnlistener/eddnlistener.go:574-578 | a denied sender's message changes nothing, whatever it carries |
| Listener.OtherMessagesIgnored | eddnlistener/eddnlistener.go:580-599 | any other schema, and any other journal event, changes nothing |
| Listener.MessageKeepsIdsEmbedded | eddnlistener/eddnlistener.go:563-600 | whatever message arrives, every stored document keeps carrying its row's id |
| Batches.AbortedStaysAborted | importsystems.go:72-79 | once the import has stopped, later records change nothing |
| Batches.CollectStopsIff | importsystems.go:72-199 | the import stops exactly when some record is refused, with the first refusal's error, after inserting what the records before it gave |
| Batches.CollectInsertsKept | importsystems.go:72-199 | an import that was not stopped inserts the row of every kept record, in order, and nothing else |
| ImportSystems.BuildSystem | importsystems.go:80-195 | the row builder computes `SystemRecordOf`: skips, index panics and the document |
| ImportSystems.WriteFlag | importsystems.go:130-134 | `is_populated` is `true` exactly for the field `1` |
| ImportSystems.WriteOptional | importsystems.go:125-128 | an optional member is written exactly when its field is not empty |
| ImportSystems.WriteOptionals | importsystems.go:136-193 | the optional members after the flag are written in the source's order |
| ImportSystems.ImportSystems | importsystems.go:60-204 | the row loop computes `ImportSystemsSpec` |
| ImportSystems.SystemColumnsShape | importsystems.go:82-195 | members come in column order, each from its own column, the required ones always, each optional one exactly when its field is not empty |
| ImportSystems.SystemDocHead | importsystems.go:82-123 | the document opens with id, name and coordinates from the row's fields and is closed by a brace |
| ImportStations.AssignKeys | importstations.go:75-77 | a map filled pair by pair has exactly the keys of the pairs |
| ImportStations.AssignLastWins | importstations.go:75-77 | the value under a key is the one of the last pair with that key |
| ImportStations.CommodityNames | importstations.go:69-77 | the definitions loop computes `CommodityNamesSpec` |
| ImportStations.ListingGap | importstations.go:100-133 | the first empty field among columns 1 to 6, in the order the loop tests them |
| ImportStations.GroupIsPerStation | importstations.go:136-168 | each station with listings gets exactly its own entries, in file order |
| ImportStations.BufferGrows | importstations.go:136-143 | a station's first entry opens its array, a later one follows a comma |
| ImportStations.WriteEntry | importstations.go:145-167 | an entry's text is `EntryText` |
| ImportStations.BuildListings | importstations.go:91-169 | the listings loop fails exactly when `ListingsSpec` does, with its message, and otherwise each buffer is its station's open array |
| ImportStations.EntryFields | importstations.go:145-167 | the commodity id reads back as listed; supply and buy price appear exactly for a positive supply, demand and sell price exactly for a positive demand |
| ImportStations.BuildFactions | importstations.go:183-205 | the factions loop computes `FactionsSpec` |
| ImportStations.RewriteStation | importstations.go:230-251 | the key-by-key rewrite computes `RewriteSpec` |
| ImportStations.RewriteShape | importstations.go:230-251 | no dropped key and no economies remain; the faction's name replaces a given faction id; the first economy becomes the primary one; other members are kept |
| ImportStations.RewriteFailsIff | importstations.go:242-250 | a rewrite fails exactly for a non-integer faction id, economies that are not a list, or a non-string first economy |
| ImportStations.SpliceListings | importstations.go:258-265 | the encoding loses its closing brace and gains `,"commodities":`, the buffer and `]}` |
| ImportStations.ImportStation | importstations.go:217-268 | one station line computes `StationRecordOf` |
| ImportStations.ImportStations | importstations.go:67-273 | the whole import computes `ImportStationsSpec` |
| ImportStations.StationDocument | importstations.go:254-265 | a station with listings gets them as one more member, a JSON array of its entries in file order; one without is stored as encoded |
| ImportBodies.Prune | importbodies.go:85-97 | the pruning loop computes `Pruned` |
| ImportBodies.PrunedShape | importbodies.go:85-97 | no null or empty list remains, every other member is kept, and pruning again changes nothing |
| ImportBodies.ParseUint | importbodies.go:100-103 | succeeds exactly on a non-negative integral number, with its value |
| ImportBodies.ImportBody | importbodies.go:73-105 | one line computes `BodyRecordOf` |
| ImportBodies.ImportBodies | importbodies.go:62-110 | the line loop computes `ImportBodiesSpec` |
| ImportBodies.BodyRecordFields | importbodies.go:98-104 | an inserted row carries the body's id, system id and name as decoded, and the encoding of the pruned body |
| ImportBodies.BodyRefusedIff | importbodies.go:81-104 | a line is refused exactly when it does not decode, its id or system id is not a non-negative integer, or its name is not a string |

## Left out

- Transport: the ZeroMQ subscription, zlib inflation, the publish socket's wire format
  and the process set-up in `main`. `HandleMessage` receives the decoded envelope, or
  the decoder's error.
- SQL: tables are sequences of rows. `COLLATE NOCASE` on names, the `CAST`s in the
  queries, indices, `PRAGMA`s and the transaction calls are not modelled. A `BEGIN` or
  `COMMIT` failure is not modelled either.
- The JSON text of stored documents and the encoder. The listener stores decoded
  documents. The importers take `json.Marshal` as an abstract `encode` parameter and
  decoded records in place of `json.Decoder`.
- `json.Number`'s text: numbers are exact reals. So `3.0` counts as an integer here,
  where Go's `Int64` rejects it, and ids are not rounded through `float64` in the
  commodity definitions.
- 64-bit and 32-bit widths: ids, prices and `strconv.Atoi`/`Int64` values are unbounded
  integers. The clock stored as `int32(time.Now().Unix())` is taken as the value
  `Env.now` gives.
- IEEE floating point: `fixCoord` and the unit changes are modelled over the reals.
- The clock, `time.Parse` of RFC 3339 timestamps and the outcome of each INSERT attempt
  come from outside, through `Events.Env`. The one-second sleep between retries is left
  out.
- Panics (failed type assertions, `assertNil`) end the listener process in the source.
  Here they are the outcome `Panicked`, with the store as it was when the panic
  happened.
- Logging (`log.Print`, `fmt.Println`) is not modelled.
- CSV tokenising: a record is its sequence of fields. Only the reader's field-count
  check against the header record is modelled. The reader's other errors, and the error
  of reading the header itself, are not.
- File I/O: opening the dumps and `ioutil.ReadFile`. The ignored error of
  `json.Unmarshal` on the commodity definitions is not modelled either: the definitions
  come in decoded.
- `bufio.Scanner`'s token limit: a line longer than the limit silently ends the
  stations or bodies loop, and the import then commits. This is not modelled.
- The `errFound` result of the ignored `UpdateSystem`/`UpdateStation` errors (the
  source tests a stale `err`) is not modelled: the update is taken to succeed.
- Volcanism.DecomposeVolcanismText: proved only for a composition of one word that no
  marker word begins (`PlainWord`). Wordings with several words, such as
  `carbon dioxide geysers`, are handled by `DecomposeVolcanism` as the source does, but
  no lemma states their result.
- Scan.VolcanismStored: stated under the same one-word restriction as
  `DecomposeVolcanismText`.
- The lookup tables are stated as constants. No property is proved about the 314-entry
  `commodityids` table beyond lookups by a symbolic name.
- Text.LowerAllProperties: lower-casing is modelled on the ASCII letters `A`-`Z` only.
  Go's `strings.ToLower` also lower-cases other Unicode letters, such as `İ` (U+0130) or
  the Kelvin sign (U+212A), and can change the length of the string.
- Translate.KeyIsKey, Translate.KeyOfKey, Translate.KeyIdempotent, Translate.LookupCases,
  Translate.LookupSeesOnlyKey: stated for the ASCII-only `LowerAll` above. A name holding
  a non-ASCII capital letter keeps that letter in its key here, so its lookup can miss a
  table entry that Go's lookup finds (the tables' own keys are all ASCII).
