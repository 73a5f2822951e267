/** The real-time card grid: a fixed table of fifteen equipment cards is
    overlaid with the first stream event for each card, the result is kept
    in browser storage, and the grid can be narrowed to one machine. */
module RealTimeUpdate {
  import opened Collections
  import opened Plant

  /** One card. `operationalStatus` and `timestamp` are absent from the
      initial table and appear once an event has been merged in. */
  datatype Card = Card(
    id: string,
    machine: string,
    equipment: string,
    status: int,
    statusText: string,
    goodCount: real,
    cycleTime: real,
    performance: real,
    oee: real,
    operationalStatus: Option<string>,
    timestamp: Option<int>)

  /** The object built from one event's payload; its `id` is the payload's
      equipment. */
  datatype CardUpdate = CardUpdate(
    id: string,
    machine: string,
    equipment: string,
    operationalStatus: string,
    goodCount: real,
    cycleTime: real,
    performance: real,
    oee: real,
    status: int,
    timestamp: int)

  function ToCardUpdate(p: Payload): (u: CardUpdate)
    ensures u.id == p.equipment && u.equipment == p.equipment && u.machine == p.machine
  {
    CardUpdate(p.equipment, p.machine, p.equipment, p.operationalStatus, p.goodCount, p.cycleTime,
               p.performance, p.oee, p.classification, p.timestamp)
  }

  /** `data.data.map(...)`: one update per event, in feed order. */
  function ParseBatch(batch: seq<Payload>): (r: seq<CardUpdate>)
    ensures |r| == |batch|
    ensures forall k :: 0 <= k < |batch| ==> r[k] == ToCardUpdate(batch[k])
  {
    seq(|batch|, k requires 0 <= k < |batch| => ToCardUpdate(batch[k]))
  }

  /** The blank card of equipment k of the enumeration. */
  function InitialCard(k: int): Card
    requires 0 <= k < NumEquipment
  {
    var name := EquipmentName(MachineIndex(k), EquipmentIndex(k));
    Card(name, MachineName(MachineIndex(k)), name, 0, "", 0.0, 0.0, 0.0, 0.0, None, None)
  }

  /** `initialCardsData`: the fifteen blank cards, machine by machine. */
  function InitialCards(): (cards: seq<Card>)
    ensures |cards| == NumEquipment
  {
    seq(NumEquipment, k requires 0 <= k < NumEquipment => InitialCard(k))
  }

  /** `{ ...card, ...update }`: the update's fields win, the card keeps only
      `statusText`. */
  function Overlay(card: Card, u: CardUpdate): (r: Card)
    ensures r.statusText == card.statusText
    ensures r.id == u.id && r.machine == u.machine && r.equipment == u.equipment && r.status == u.status
    ensures r.operationalStatus == Some(u.operationalStatus) && r.timestamp == Some(u.timestamp)
  {
    Card(u.id, u.machine, u.equipment, u.status, card.statusText, u.goodCount, u.cycleTime,
         u.performance, u.oee, Some(u.operationalStatus), Some(u.timestamp))
  }

  /** `parsedData.find(data => data.id === id)`. */
  function FindUpdate(parsed: seq<CardUpdate>, id: string): (r: Option<CardUpdate>)
    ensures r.None? <==> forall k :: 0 <= k < |parsed| ==> parsed[k].id != id
    ensures r.Some? ==> r.value in parsed && r.value.id == id
  {
    FindFirst(parsed, (u: CardUpdate) => u.id == id)
  }

  /** `cards.map(card => ...)`: each card overlaid with the first update of
      the same id, if any. */
  function MergeCards(cards: seq<Card>, parsed: seq<CardUpdate>): (merged: seq<Card>)
    ensures |merged| == |cards|
    ensures forall k :: 0 <= k < |cards| ==> merged[k].id == cards[k].id && merged[k].statusText == cards[k].statusText
  {
    seq(|cards|, k requires 0 <= k < |cards| =>
      match FindUpdate(parsed, cards[k].id)
      case None => cards[k]
      case Some(u) => Overlay(cards[k], u))
  }

  /** The merge keeps the number and the id order of the cards. A card
      without an update of its id is returned unchanged; otherwise it takes
      the fields of the first such update in feed order, whatever the later
      ones' timestamps, and keeps its own status text. */
  lemma MergeCardsSpec(cards: seq<Card>, parsed: seq<CardUpdate>)
    ensures |MergeCards(cards, parsed)| == |cards|
    ensures forall k :: 0 <= k < |cards| ==> MergeCards(cards, parsed)[k].id == cards[k].id
    ensures forall k :: 0 <= k < |cards| ==>
              (forall i :: 0 <= i < |parsed| ==> parsed[i].id != cards[k].id) ==> MergeCards(cards, parsed)[k] == cards[k]
    ensures forall k, i :: 0 <= k < |cards| && 0 <= i < |parsed| && parsed[i].id == cards[k].id &&
                           (forall j :: 0 <= j < i ==> parsed[j].id != cards[k].id) ==>
              MergeCards(cards, parsed)[k] == Overlay(cards[k], parsed[i])
    ensures forall k :: 0 <= k < |cards| ==> MergeCards(cards, parsed)[k].statusText == cards[k].statusText
  {
    forall k, i | 0 <= k < |cards| && 0 <= i < |parsed| && parsed[i].id == cards[k].id &&
                  (forall j :: 0 <= j < i ==> parsed[j].id != cards[k].id)
      ensures MergeCards(cards, parsed)[k] == Overlay(cards[k], parsed[i])
    {
      var r := FindUpdate(parsed, cards[k].id);
      assert r.Some?;
      var i' :| 0 <= i' < |parsed| && parsed[i'] == r.value && parsed[i'].id == cards[k].id &&
                forall j :: 0 <= j < i' ==> parsed[j].id != cards[k].id;
      assert i' == i;
    }
  }

  /** The card for equipment k in a merged table of the blank cards. */
  lemma MergedInitialCard(parsed: seq<CardUpdate>, k: int)
    requires 0 <= k < NumEquipment
    ensures var card := MergeCards(InitialCards(), parsed)[k];
            && card.id == EquipmentName(MachineIndex(k), EquipmentIndex(k))
            && (FindUpdate(parsed, card.id).None? ==> card == InitialCard(k))
            && (FindUpdate(parsed, card.id).Some? ==> card == Overlay(InitialCard(k), FindUpdate(parsed, card.id).value))
  {
    MergeCardsSpec(InitialCards(), parsed);
  }

  /** `filteredCards`: every card for 'all', otherwise the cards of the
      selected machine. */
  function FilterCards(cards: seq<Card>, zone: string): (shown: seq<Card>)
    ensures |shown| <= |cards|
    ensures forall k :: 0 <= k < |shown| ==> shown[k] in cards && (zone != "all" ==> shown[k].machine == zone)
  {
    if zone == "all" then cards
    else
      var inZone := (c: Card) => c.machine == zone;
      FilterKeeps(cards, inZone);
      Filter(cards, inZone)
  }

  /** Zone 'all' shows every card; any other zone shows exactly the cards of
      that machine, each as often as in the grid and in grid order. */
  lemma FilterCardsExact(cards: seq<Card>, zone: string)
    ensures zone == "all" ==> FilterCards(cards, zone) == cards
    ensures zone != "all" ==>
              && IsSubsequence(FilterCards(cards, zone), cards)
              && (forall c :: c in FilterCards(cards, zone) <==> c in cards && c.machine == zone)
              && (forall c: Card :: c.machine == zone ==> multiset(FilterCards(cards, zone))[c] == multiset(cards)[c])
  {
    if zone != "all" {
      FilterSpec(cards, (c: Card) => c.machine == zone);
    }
  }

  /** The two storage entries the component uses. */
  datatype Storage = Storage(cardsData: Option<seq<Card>>, lastUpdate: Option<string>)

  datatype CardsState = CardsState(selectedZone: string, cardsData: seq<Card>, lastUpdate: string)

  /** The initial state read from storage: saved cards or none, the saved
      update time or the empty text, zone 'all'. */
  function Mount(storage: Storage): (s: CardsState)
    ensures s.selectedZone == "all"
    ensures s.cardsData == (if storage.cardsData.Some? then storage.cardsData.value else [])
    ensures s.lastUpdate == (if storage.lastUpdate.Some? then storage.lastUpdate.value else "")
  {
    CardsState("all",
               match storage.cardsData case Some(cards) => cards case None => [],
               match storage.lastUpdate case Some(text) => text case None => "")
  }

  /** The effect fetches immediately only while the grid is empty. */
  predicate FetchesOnRender(state: CardsState)
  {
    |state.cardsData| == 0
  }

  /** One response of the stream endpoint, with `now` the formatted current
      time: a `success` body with a `data` array replaces the grid with the
      blank table merged with the batch, sets the update time and stores
      both; anything else changes neither state nor storage. */
  function OnKafkaResponse(state: CardsState, storage: Storage, response: FetchResult<Payload>, now: string)
    : (r: (CardsState, Storage))
    ensures response.Body? && response.status == "success" && response.data.Some? ==>
              var cards := MergeCards(InitialCards(), ParseBatch(response.data.value));
              r == (state.(cardsData := cards, lastUpdate := now), Storage(Some(cards), Some(now)))
    ensures !(response.Body? && response.status == "success" && response.data.Some?) ==> r == (state, storage)
  {
    if response.Body? && response.status == "success" && response.data.Some? then
      var parsedData := ParseBatch(response.data.value);
      var updatedData := MergeCards(InitialCards(), parsedData);
      (state.(cardsData := updatedData, lastUpdate := now), Storage(Some(updatedData), Some(now)))
    else (state, storage)
  }

  /** After a successful response the grid always has the fifteen cards in
      table order, whatever it showed before, and a remount reads back the
      same grid and update time. */
  lemma SuccessfulResponse(state: CardsState, storage: Storage, batch: seq<Payload>, status: string, now: string)
    requires status == "success"
    ensures var (next, stored) := OnKafkaResponse(state, storage, Body(status, Some(batch)), now);
            && |next.cardsData| == NumEquipment
            && (forall k :: 0 <= k < NumEquipment ==> next.cardsData[k].id == InitialCards()[k].id)
            && Mount(stored).cardsData == next.cardsData
            && Mount(stored).lastUpdate == now
            && !FetchesOnRender(next)
  {
    MergeCardsSpec(InitialCards(), ParseBatch(batch));
  }
}
