/** components/store.tsx: buying a card pack with emeralds, rolling its five cards
    and paging through them. */
module Store {
  import opened Wrappers
  import opened JsMath
  import opened ChartText
  import opened PlayerState

  datatype PackType = Basic | Premium | Ultimate

  /** PACK_PRICES. */
  function PackPrice(t: PackType): nat {
    match t
    case Basic => 50
    case Premium => 100
    case Ultimate => 200
  }

  /** Percentage chances of each rarity. */
  datatype Chances = Chances(common: nat, rare: nat, epic: nat, legendary: nat)

  /** getRarityChances. Each table is a distribution over the four rarities. */
  function RarityChances(t: PackType): (c: Chances)
    ensures c.common + c.rare + c.epic + c.legendary == 100
    ensures c.legendary > 0 && c.epic > 0 && c.rare > 0 && c.common > 0
  {
    match t
    case Basic => Chances(70, 25, 4, 1)
    case Premium => Chances(40, 40, 15, 5)
    case Ultimate => Chances(20, 40, 30, 10)
  }

  /** Dearer packs cost more and give better odds: the chance of a legendary and of an
      epic card rises and the chance of a common card falls. */
  lemma DearerPacksAreRarer()
    ensures PackPrice(Basic) < PackPrice(Premium) < PackPrice(Ultimate)
    ensures RarityChances(Basic).legendary < RarityChances(Premium).legendary < RarityChances(Ultimate).legendary
    ensures RarityChances(Basic).epic < RarityChances(Premium).epic < RarityChances(Ultimate).epic
    ensures RarityChances(Basic).common > RarityChances(Premium).common > RarityChances(Ultimate).common
  {
  }

  /** determineRarity, given `roll = Math.random() * 100`. */
  function DetermineRarity(chances: Chances, roll: real): Rarity {
    if roll < chances.legendary as real then Legendary
    else if roll < (chances.legendary + chances.epic) as real then Epic
    else if roll < (chances.legendary + chances.epic + chances.rare) as real then Rare
    else Common
  }

  /** The roll is cut into consecutive bands: legendary first, then epic, then rare,
      and common for the rest. */
  lemma RarityBands(chances: Chances, roll: real)
    ensures var l, e, r := chances.legendary as real, chances.epic as real, chances.rare as real;
      && (DetermineRarity(chances, roll) == Legendary <==> roll < l)
      && (DetermineRarity(chances, roll) == Epic <==> l <= roll < l + e)
      && (DetermineRarity(chances, roll) == Rare <==> l + e <= roll < l + e + r)
      && (DetermineRarity(chances, roll) == Common <==> l + e + r <= roll)
  {
  }

  /** A roll in [0, 100) lands in the common band exactly when it is at least
      100 minus the common chance. */
  lemma CommonBand(t: PackType, roll: real)
    requires 0.0 <= roll < 100.0
    ensures DetermineRarity(RarityChances(t), roll) == Common
        <==> roll >= (100 - RarityChances(t).common) as real
  {
    RarityBands(RarityChances(t), roll);
  }

  /** `STORE_ITEMS.filter((item) => item.rarity === rarity)`. */
  function OfRarity(items: seq<Item>, rarity: Rarity): (r: seq<Item>)
    ensures |r| <= |items|
    ensures forall k :: 0 <= k < |r| ==> r[k] in items && r[k].rarity == rarity
  {
    if items == [] then []
    else
      var rest := OfRarity(items[1..], rarity);
      assert forall k :: 0 <= k < |rest| ==> rest[k] in items;
      (if items[0].rarity == rarity then [items[0]] else []) + rest
  }

  /** The filter keeps every item of that rarity. */
  lemma {:induction false} OfRarityComplete(items: seq<Item>, rarity: Rarity, i: nat)
    requires i < |items| && items[i].rarity == rarity
    ensures items[i] in OfRarity(items, rarity)
  {
    if i > 0 {
      OfRarityComplete(items[1..], rarity, i - 1);
      assert items[1..][i - 1] == items[i];
    }
  }

  /** No rarity's filter is empty, so the random pick always has an item to take. */
  lemma RarityStocked(rarity: Rarity)
    ensures |OfRarity(STORE_ITEMS, rarity)| > 0
  {
    EveryRarityStocked(rarity);
    var i :| 0 <= i < |STORE_ITEMS| && STORE_ITEMS[i].rarity == rarity;
    OfRarityComplete(STORE_ITEMS, rarity, i);
  }

  const PACK_SIZE: nat := 5

  /** What the generator reads for one card: the rarity roll and the item pick (two
      Math.random values) and the clock (Date.now). */
  datatype CardDraw = CardDraw(roll: real, pick: real, now: nat)

  predicate DrawOk(d: CardDraw) {
    0.0 <= d.roll < 1.0 && 0.0 <= d.pick < 1.0
  }

  /** The suffix `-<now>-<i>` that makes a card's id unique. */
  function Suffix(now: nat, i: nat): string {
    "-" + NatToString(now) + "-" + NatToString(i)
  }

  /** The store item a draw picks, before its id is changed. */
  function Chosen(t: PackType, d: CardDraw): (item: Item)
    requires DrawOk(d)
    ensures item in STORE_ITEMS
    ensures item.rarity == DetermineRarity(RarityChances(t), d.roll * 100.0)
  {
    var rarity := DetermineRarity(RarityChances(t), d.roll * 100.0);
    var possible := OfRarity(STORE_ITEMS, rarity);
    RarityStocked(rarity);
    ScaledRange(d.pick, |possible|);
    possible[Scaled(d.pick, |possible|)]
  }

  /** Card i of a pack. */
  function PackCard(t: PackType, d: CardDraw, i: nat): Item
    requires DrawOk(d)
  {
    var chosen := Chosen(t, d);
    chosen.(id := chosen.id + Suffix(d.now, i))
  }

  /** A card is its store item under a new id: it keeps the item's song fields, so a
      card of songs 6, 9 or 10 has that song's chart, and no other card has one. */
  lemma PackCardKeepsFiles(t: PackType, d: CardDraw, i: nat)
    requires DrawOk(d)
    ensures PackCard(t, d, i).files == Chosen(t, d).files && PackCard(t, d, i).kind == Chosen(t, d).kind
    ensures PackCard(t, d, i).files.chartFile.Some? <==> Chosen(t, d).id in {"song-6", "song-9", "song-10"}
    ensures PlayerState.HasChart(PackCard(t, d, i).files) <==> PackCard(t, d, i).files.chartFile.Some?
  {
    var c := Chosen(t, d);
    var j :| 0 <= j < |STORE_ITEMS| && STORE_ITEMS[j] == c;
    CatalogCharts();
  }

  function PackItems(t: PackType, draws: seq<CardDraw>): seq<Item>
    requires forall k :: 0 <= k < |draws| ==> DrawOk(draws[k])
  {
    seq(|draws|, k requires 0 <= k < |draws| => PackCard(t, draws[k], k))
  }

  lemma PackItemsStep(t: PackType, draws: seq<CardDraw>, i: nat)
    requires i < |draws| && forall k :: 0 <= k <= i ==> DrawOk(draws[k])
    ensures PackItems(t, draws[..i + 1]) == PackItems(t, draws[..i]) + [PackCard(t, draws[i], i)]
  {
    assert draws[..i + 1] == draws[..i] + [draws[i]];
  }

  /** generatePackItems. */
  method GeneratePackItems(t: PackType, draws: seq<CardDraw>) returns (items: seq<Item>)
    requires |draws| >= PACK_SIZE
    requires forall k :: 0 <= k < PACK_SIZE ==> DrawOk(draws[k])
    ensures items == PackItems(t, draws[..PACK_SIZE])
  {
    items := [];
    var rarityChances := RarityChances(t);
    for i := 0 to PACK_SIZE
      invariant items == PackItems(t, draws[..i])
    {
      var d := draws[i];
      var rarity := DetermineRarity(rarityChances, d.roll * 100.0);
      var possibleItems := OfRarity(STORE_ITEMS, rarity);
      RarityStocked(rarity);
      ScaledRange(d.pick, |possibleItems|);
      var randomItem := possibleItems[Scaled(d.pick, |possibleItems|)];
      assert randomItem == Chosen(t, d);
      items := items + [randomItem.(id := randomItem.id + Suffix(d.now, i))];
      PackItemsStep(t, draws, i);
    }
    assert draws[..PACK_SIZE] == draws[..5];
  }

  /** The last character of a card's id is its position in the pack. */
  lemma SuffixEndsInPosition(base: string, now: nat, i: nat)
    requires i < 10
    ensures var id := base + Suffix(now, i); |id| > 0 && id[|id| - 1] == '0' + i as char
  {
    assert NatToString(i) == ['0' + i as char];
  }

  /** Card i is a store item of its roll's rarity under the id `<item id>-<now>-<i>`,
      an id that ends in the digit i. */
  lemma PackCardCopies(t: PackType, d: CardDraw, i: nat)
    requires DrawOk(d) && i < PACK_SIZE
    ensures var card := PackCard(t, d, i);
      && card.rarity == DetermineRarity(RarityChances(t), d.roll * 100.0)
      && (exists j :: 0 <= j < |STORE_ITEMS| && STORE_ITEMS[j].rarity == card.rarity
            && card == STORE_ITEMS[j].(id := STORE_ITEMS[j].id + Suffix(d.now, i)))
      && |card.id| > 0 && card.id[|card.id| - 1] == '0' + i as char
  {
    var c := Chosen(t, d);
    var j :| 0 <= j < |STORE_ITEMS| && STORE_ITEMS[j] == c;
    SuffixEndsInPosition(c.id, d.now, i);
  }

  /** A pack has one card per draw; card k has the rarity its roll lands on and is a
      copy of a store item of that rarity under the id `<item id>-<now>-<k>`; no two
      cards of a pack share an id. */
  lemma PackContents(t: PackType, draws: seq<CardDraw>)
    requires |draws| == PACK_SIZE
    requires forall k :: 0 <= k < |draws| ==> DrawOk(draws[k])
    ensures |PackItems(t, draws)| == PACK_SIZE
    ensures var items := PackItems(t, draws);
      forall k :: 0 <= k < PACK_SIZE ==>
        && items[k].rarity == DetermineRarity(RarityChances(t), draws[k].roll * 100.0)
        && exists j :: 0 <= j < |STORE_ITEMS| && STORE_ITEMS[j].rarity == items[k].rarity
             && items[k] == STORE_ITEMS[j].(id := STORE_ITEMS[j].id + Suffix(draws[k].now, k))
    ensures var items := PackItems(t, draws);
      forall k, l :: 0 <= k < l < PACK_SIZE ==> items[k].id != items[l].id
  {
    forall k | 0 <= k < PACK_SIZE
      ensures PackItems(t, draws)[k] == PackCard(t, draws[k], k)
    {
      PackCardCopies(t, draws[k], k);
    }
    PackIdsDistinct(t, draws);
  }

  lemma PackIdsDistinct(t: PackType, draws: seq<CardDraw>)
    requires |draws| == PACK_SIZE
    requires forall k :: 0 <= k < |draws| ==> DrawOk(draws[k])
    ensures var items := PackItems(t, draws);
      forall k, l :: 0 <= k < l < PACK_SIZE ==> items[k].id != items[l].id
  {
    var items := PackItems(t, draws);
    forall k | 0 <= k < PACK_SIZE
      ensures var id := items[k].id; |id| > 0 && id[|id| - 1] == '0' + k as char
    {
      PackCardCopies(t, draws[k], k);
    }
  }

  datatype SlideDirection = Left | Right

  /** The component's own state, as one value. */
  datatype View = View(openingPack: bool, packItems: seq<Item>, packType: Option<PackType>,
                       showCarousel: bool, currentCardIndex: int, showCollection: bool,
                       slideDirection: Option<SlideDirection>, isAnimating: bool)

  /** The Store screen. `wallet` is the shared provider state it spends from and adds
      items to. */
  class StoreScreen {
    const wallet: GameState
    var openingPack: bool
    var packItems: seq<Item>
    var packType: Option<PackType>
    var showCarousel: bool
    var currentCardIndex: int
    var showCollection: bool
    var slideDirection: Option<SlideDirection>
    var isAnimating: bool

    function Screen(): View
      reads this
    {
      View(openingPack, packItems, packType, showCarousel, currentCardIndex, showCollection,
           slideDirection, isAnimating)
    }

    /** While a pack is open, the shown card is one of its cards, and a slide in
        progress has a next card to move to. */
    predicate Browsing()
      reads this
    {
      openingPack ==> 0 <= currentCardIndex < |packItems| && (isAnimating ==> currentCardIndex + 1 < |packItems|)
    }

    constructor(wallet: GameState)
      ensures this.wallet == wallet
      ensures Screen() == View(false, [], None, false, 0, false, None, false)
    {
      this.wallet := wallet;
      openingPack := false;
      packItems := [];
      packType := None;
      showCarousel := false;
      currentCardIndex := 0;
      showCollection := false;
      slideDirection := None;
      isAnimating := false;
    }

    /** startPackSelection: buying succeeds exactly when the balance covers the price;
        it then debits the price, records the pack type and shows the carousel.
        Otherwise (the "Not enough emeralds!" alert) nothing changes. */
    method StartPackSelection(t: PackType) returns (bought: bool)
      modifies this, wallet
      ensures bought <==> old(wallet.emeralds) >= PackPrice(t)
      ensures bought ==> wallet.Data() == old(wallet.Data()).(emeralds := old(wallet.emeralds) - PackPrice(t))
      ensures bought ==> Screen() == old(Screen()).(packType := Some(t), showCarousel := true)
      ensures !bought ==> wallet.Data() == old(wallet.Data()) && Screen() == old(Screen())
    {
      var price := PackPrice(t);
      bought := wallet.SpendEmeralds(price);
      if bought {
        packType := Some(t);
        showCarousel := true;
      }
    }

    /** completePackSelection: without a pack type nothing happens; otherwise the
        carousel closes, the pack opens at card 0 with five new cards, and the cards
        are appended to the collection. */
    method CompletePackSelection(draws: seq<CardDraw>)
      requires |draws| >= PACK_SIZE
      requires forall k :: 0 <= k < PACK_SIZE ==> DrawOk(draws[k])
      modifies this, wallet
      ensures old(packType).None? ==> Screen() == old(Screen()) && wallet.Data() == old(wallet.Data())
      ensures old(packType).Some? ==>
        var items := PackItems(old(packType).value, draws[..PACK_SIZE]);
        && Screen() == old(Screen()).(showCarousel := false, openingPack := true, currentCardIndex := 0,
                                      packItems := items)
        && wallet.Data() == old(wallet.Data()).(items := old(wallet.items) + items)
        && Browsing()
    {
      if packType.None? {
        return;
      }
      showCarousel := false;
      openingPack := true;
      currentCardIndex := 0;
      var items := GeneratePackItems(packType.value, draws);
      PackContents(packType.value, draws[..PACK_SIZE]);
      packItems := items;
      wallet.AddItems(items);
    }

    /** cancelPackSelection: a selected pack's price is refunded through a negative
        spend; the carousel closes and the pack type is cleared. */
    method CancelPackSelection()
      modifies this, wallet
      ensures old(packType).Some? ==>
        wallet.Data() == old(wallet.Data()).(emeralds := Spend(old(wallet.emeralds), -(PackPrice(old(packType).value) as int)).balance)
      ensures old(packType).None? ==> wallet.Data() == old(wallet.Data())
      ensures Screen() == old(Screen()).(showCarousel := false, packType := None)
    {
      if packType.Some? {
        var price := PackPrice(packType.value);
        var _ := wallet.SpendEmeralds(-(price as int));
      }
      showCarousel := false;
      packType := None;
    }

    /** With no pack selected, buying a pack and cancelling the selection leaves the wallet as it was and
        clears the pack type. */
    method BuyThenCancel(t: PackType) returns (bought: bool)
      requires wallet.emeralds >= 0 && packType.None?
      modifies this, wallet
      ensures wallet.Data() == old(wallet.Data())
      ensures packType == None && !showCarousel
    {
      bought := StartPackSelection(t);
      if bought {
        RefundAlwaysSucceeds(wallet.emeralds, PackPrice(t));
      }
      CancelPackSelection();
    }

    /** closePack. */
    method ClosePack()
      modifies this
      ensures Screen() == old(Screen()).(openingPack := false, packItems := [], packType := None,
                                         currentCardIndex := 0)
      ensures Browsing()
    {
      openingPack := false;
      packItems := [];
      packType := None;
      currentCardIndex := 0;
    }

    /** handleCardClick. A click during a slide is ignored; on the last card it shows
        the collection; otherwise it starts the slide to the left. The 300 ms timer that
        finishes the slide is scheduled only when the card element is mounted
        (`cardMounted`, the ref check); `timerStarted` says whether it was. */
    method HandleCardClick(cardMounted: bool) returns (timerStarted: bool)
      modifies this
      ensures old(isAnimating) ==> Screen() == old(Screen()) && !timerStarted
      ensures !old(isAnimating) && old(currentCardIndex) == |old(packItems)| - 1 ==>
        Screen() == old(Screen()).(showCollection := true) && !timerStarted
      ensures !old(isAnimating) && old(currentCardIndex) != |old(packItems)| - 1 ==>
        Screen() == old(Screen()).(isAnimating := true, slideDirection := Some(Left))
        && timerStarted == cardMounted
      ensures old(Browsing()) ==> Browsing()
    {
      timerStarted := false;
      if isAnimating {
        return;
      }
      if currentCardIndex == |packItems| - 1 {
        showCollection := true;
        return;
      }
      isAnimating := true;
      slideDirection := Some(Left);
      timerStarted := cardMounted;
    }

    /** The "Next Card" button, shown before the last card. It acts as handleCardClick
        on a mounted card: a click during a slide is ignored, otherwise a left slide
        starts and its 300 ms timer, FinishSlide, is always scheduled. */
    method NextCardButton()
      requires currentCardIndex < |packItems| - 1
      modifies this
      ensures old(isAnimating) ==> Screen() == old(Screen())
      ensures !old(isAnimating) ==> Screen() == old(Screen()).(isAnimating := true, slideDirection := Some(Left))
      ensures old(Browsing()) ==> Browsing()
    {
      if isAnimating {
        return;
      }
      isAnimating := true;
      slideDirection := Some(Left);
    }

    /** The "Collection" button, shown on the last card: it opens the collection, with
        no check for a slide in progress. */
    method CollectionButton()
      requires currentCardIndex >= |packItems| - 1
      modifies this
      ensures Screen() == old(Screen()).(showCollection := true)
      ensures old(Browsing()) ==> Browsing()
    {
      showCollection := true;
    }

    /** The timer callback of handleCardClick: move to the next card and end the slide. */
    method FinishSlide()
      modifies this
      ensures Screen() == old(Screen()).(currentCardIndex := old(currentCardIndex) + 1,
                                         slideDirection := None, isAnimating := false)
      ensures old(isAnimating) && old(Browsing()) ==> Browsing()
    {
      currentCardIndex := currentCardIndex + 1;
      slideDirection := None;
      isAnimating := false;
    }

    /** handleBackFromCollection. */
    method BackFromCollection()
      modifies this
      ensures Screen() == old(Screen()).(showCollection := false, openingPack := false, packItems := [],
                                         packType := None, currentCardIndex := 0)
    {
      showCollection := false;
      ClosePack();
    }
  }
}
