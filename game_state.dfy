/** hooks/use-game-state.tsx: the player's persistent state, shared through a React
    context: the emerald balance, the item collection, the selected song and the
    avatar settings, plus the store catalogue STORE_ITEMS. */
module PlayerState {
  import opened Wrappers
  import opened ChartText
  import ChartParser

  datatype Rarity = Common | Rare | Epic | Legendary
  datatype ItemType = Guitar | Clothing | Amp | Fretboard | Song

  /** A song's optional `difficulty`, `chartFile` and `audioFile` fields, grouped;
      other items have none of them. */
  datatype SongFiles = SongFiles(difficulty: Option<ChartParser.Difficulty>, chartFile: Option<string>,
                                 audioFile: Option<string>)

  const NO_FILES: SongFiles := SongFiles(None, None, None)

  /** `song?.chartFile` read as a condition: a chart file that is present and is not
      the empty string. */
  predicate HasChart(files: SongFiles) {
    files.chartFile.Some? && files.chartFile.value != ""
  }

  /** An item; the display fields (name, image, description, artist, duration) are
      not modelled. */
  datatype Item = Item(id: string, kind: ItemType, rarity: Rarity, files: SongFiles)

  function TypeName(k: ItemType): string {
    match k
    case Guitar => "guitar"
    case Clothing => "clothing"
    case Amp => "amp"
    case Fretboard => "fretboard"
    case Song => "song"
  }

  /** Catalogue ids have the form `<type>-<n>`. */
  function CatalogId(k: ItemType, n: nat): string {
    TypeName(k) + "-" + NatToString(n)
  }

  /** The song fields of catalogue item `<k>-<n>`: each song's difficulty, and the
      chart and audio files of songs 6, 9 and 10. */
  function CatalogFiles(k: ItemType, n: nat): SongFiles {
    if k != Song then NO_FILES
    else if n == 6 then
      SongFiles(Some(ChartParser.Medium), Some("stairway-to-heaven.chart"), Some("stairway-to-heaven.mp3"))
    else if n == 9 then
      SongFiles(Some(ChartParser.Medium), Some("house-of-the-rising-sun.chart"), Some("house-of-the-rising-sun.mp3"))
    else if n == 10 then
      SongFiles(Some(ChartParser.Medium), Some("mary-janes-last-dance.chart"), Some("mary-janes-last-dance.mp3"))
    else if n == 1 || n == 2 || n == 8 then SongFiles(Some(ChartParser.Medium), None, None)
    else if n == 3 || n == 7 then SongFiles(Some(ChartParser.Hard), None, None)
    else if n == 4 || n == 5 then SongFiles(Some(ChartParser.Expert), None, None)
    else NO_FILES
  }

  /** The items of one type, numbered from 1, with the given rarities. */
  function Catalog(k: ItemType, rarities: seq<Rarity>): seq<Item> {
    seq(|rarities|, i requires 0 <= i < |rarities| =>
      Item(CatalogId(k, i + 1), k, rarities[i], CatalogFiles(k, i + 1)))
  }

  /** STORE_ITEMS, in its order: four guitars, four clothing items, four amps, four
      fretboards and ten songs. */
  const STORE_ITEMS: seq<Item> :=
    Catalog(Guitar, [Common, Rare, Epic, Legendary])
    + Catalog(Clothing, [Common, Common, Rare, Legendary])
    + Catalog(Amp, [Common, Rare, Epic, Legendary])
    + Catalog(Fretboard, [Common, Rare, Epic, Legendary])
    + Catalog(Song, [Common, Common, Rare, Epic, Legendary, Rare, Epic, Common, Rare, Epic])

  predicate Distinct(items: seq<Item>) {
    forall i, j :: 0 <= i < j < |items| ==> items[i].id != items[j].id
  }

  /** Every id starts with one of the letters in `initials`. */
  predicate InitialsIn(items: seq<Item>, initials: set<char>) {
    forall i :: 0 <= i < |items| ==> |items[i].id| > 0 && items[i].id[0] in initials
  }

  /** Within one type, different numbers give different ids. */
  lemma CatalogIdInjective(k: ItemType, a: nat, b: nat)
    requires CatalogId(k, a) == CatalogId(k, b)
    ensures a == b
  {
    var prefix := TypeName(k) + "-";
    assert CatalogId(k, a)[|prefix|..] == NatToString(a);
    assert CatalogId(k, b)[|prefix|..] == NatToString(b);
    NatToStringRoundTrip(a);
    NatToStringRoundTrip(b);
  }

  lemma CatalogFacts(k: ItemType, rarities: seq<Rarity>)
    ensures Distinct(Catalog(k, rarities))
    ensures InitialsIn(Catalog(k, rarities), {TypeName(k)[0]})
  {
    CatalogDistinct(k, rarities);
    CatalogInitials(k, rarities);
  }

  lemma CatalogDistinct(k: ItemType, rarities: seq<Rarity>)
    ensures Distinct(Catalog(k, rarities))
  {
    var c := Catalog(k, rarities);
    forall i, j | 0 <= i < j < |c|
      ensures c[i].id != c[j].id
    {
      if c[i].id == c[j].id {
        CatalogIdInjective(k, i + 1, j + 1);
      }
    }
  }

  lemma CatalogInitials(k: ItemType, rarities: seq<Rarity>)
    ensures InitialsIn(Catalog(k, rarities), {TypeName(k)[0]})
  {
    var c := Catalog(k, rarities);
    forall i | 0 <= i < |c|
      ensures |c[i].id| > 0 && c[i].id[0] == TypeName(k)[0]
    {
      assert c[i].id == TypeName(k) + "-" + NatToString(i + 1);
    }
  }

  /** Lists whose ids start with different letters share no id. */
  lemma DistinctAppend(a: seq<Item>, b: seq<Item>, la: set<char>, lb: set<char>)
    requires Distinct(a) && Distinct(b) && InitialsIn(a, la) && InitialsIn(b, lb) && la !! lb
    ensures Distinct(a + b) && InitialsIn(a + b, la + lb)
  {
    var s := a + b;
    forall i, j | 0 <= i < j < |s|
      ensures s[i].id != s[j].id
    {
      if j < |a| {
        assert s[i] == a[i] && s[j] == a[j];
      } else if i >= |a| {
        assert s[i] == b[i - |a|] && s[j] == b[j - |a|];
      } else {
        assert s[i] == a[i] && s[j] == b[j - |a|];
        assert s[i].id[0] in la && s[j].id[0] in lb;
      }
    }
  }

  /** STORE_ITEMS has no two items with the same id. */
  lemma StoreIdsDistinct()
    ensures Distinct(STORE_ITEMS)
  {
    var g := Catalog(Guitar, [Common, Rare, Epic, Legendary]);
    var c := Catalog(Clothing, [Common, Common, Rare, Legendary]);
    var a := Catalog(Amp, [Common, Rare, Epic, Legendary]);
    var f := Catalog(Fretboard, [Common, Rare, Epic, Legendary]);
    var s := Catalog(Song, [Common, Common, Rare, Epic, Legendary, Rare, Epic, Common, Rare, Epic]);
    CatalogFacts(Guitar, [Common, Rare, Epic, Legendary]);
    CatalogFacts(Clothing, [Common, Common, Rare, Legendary]);
    CatalogFacts(Amp, [Common, Rare, Epic, Legendary]);
    CatalogFacts(Fretboard, [Common, Rare, Epic, Legendary]);
    CatalogFacts(Song, [Common, Common, Rare, Epic, Legendary, Rare, Epic, Common, Rare, Epic]);
    DistinctAppend(g, c, {'g'}, {'c'});
    DistinctAppend(g + c, a, {'g', 'c'}, {'a'});
    DistinctAppend(g + c + a, f, {'g', 'c', 'a'}, {'f'});
    DistinctAppend(g + c + a + f, s, {'g', 'c', 'a', 'f'}, {'s'});
  }

  /** Every rarity is stocked, so a pack can always draw an item of the rarity it rolls. */
  lemma EveryRarityStocked(r: Rarity)
    ensures exists i :: 0 <= i < |STORE_ITEMS| && STORE_ITEMS[i].rarity == r
  {
    var w := match r case Common => 0 case Rare => 1 case Epic => 2 case Legendary => 3;
    assert STORE_ITEMS[w].rarity == r;
  }

  /** `items.find((item) => item.id === id)`. */
  function FindById(items: seq<Item>, id: string): (r: Option<Item>)
    ensures r.Some? ==> r.value in items && r.value.id == id
    ensures r.None? <==> forall i :: 0 <= i < |items| ==> items[i].id != id
  {
    if items == [] then None
    else if items[0].id == id then Some(items[0])
    else
      var r := FindById(items[1..], id);
      assert forall i :: 1 <= i < |items| ==> items[i] == items[1..][i - 1];
      r
  }

  /** In a list without repeated ids, find returns the one item with that id. */
  lemma FindUnique(items: seq<Item>, k: nat)
    requires Distinct(items) && k < |items|
    ensures FindById(items, items[k].id) == Some(items[k])
  {
    var r := FindById(items, items[k].id);
    assert r.Some?;
    var j :| 0 <= j < |items| && items[j] == r.value;
    assert items[j].id == items[k].id;
    assert j == k;
  }

  /** The lookups of the default songs' ids find songs. */
  lemma DefaultLookups()
    ensures FindById(STORE_ITEMS, "song-9").Some? && FindById(STORE_ITEMS, "song-9").value.kind == Song
    ensures FindById(STORE_ITEMS, "song-6").Some? && FindById(STORE_ITEMS, "song-6").value.kind == Song
    ensures FindById(STORE_ITEMS, "song-10").Some? && FindById(STORE_ITEMS, "song-10").value.kind == Song
    ensures FindById(STORE_ITEMS, "song-9") == Some(STORE_ITEMS[24])
    ensures FindById(STORE_ITEMS, "song-6") == Some(STORE_ITEMS[21])
    ensures FindById(STORE_ITEMS, "song-10") == Some(STORE_ITEMS[25])
  {
    DefaultSongIds();
    StoreItemFound(24);
    StoreItemFound(21);
    StoreItemFound(25);
  }

  /** Looking up a store item's id finds that item. */
  lemma StoreItemFound(k: nat)
    requires k < |STORE_ITEMS|
    ensures FindById(STORE_ITEMS, STORE_ITEMS[k].id) == Some(STORE_ITEMS[k])
  {
    StoreIdsDistinct();
    FindUnique(STORE_ITEMS, k);
  }

  /** Where the default songs sit in STORE_ITEMS. */
  lemma DefaultSongIds()
    ensures STORE_ITEMS[24].id == "song-9" && STORE_ITEMS[21].id == "song-6"
    ensures STORE_ITEMS[25].id == "song-10"
    ensures STORE_ITEMS[24].kind == STORE_ITEMS[21].kind == STORE_ITEMS[25].kind == Song
  {
    StoreItemAt(24);
    StoreItemAt(21);
    StoreItemAt(25);
    assert NatToString(9) == "9" && NatToString(6) == "6";
    assert NatToString(10) == NatToString(1) + "0" == "10";
  }

  /** The three songs a new player owns: "House of the Rising Sun" (song-9),
      "Stairway to Heaven" (song-6) and "Mary Jane's Last Dance" (song-10). */
  function DefaultItems(): (r: seq<Item>)
    ensures |r| == 3 && r[0].id == "song-9" && r[1].id == "song-6" && r[2].id == "song-10"
    ensures r == [STORE_ITEMS[24], STORE_ITEMS[21], STORE_ITEMS[25]]
    ensures forall item :: item in r ==> item in STORE_ITEMS && item.kind == Song
  {
    DefaultLookups();
    DefaultSongIds();
    [FindById(STORE_ITEMS, "song-9").value,
     FindById(STORE_ITEMS, "song-6").value,
     FindById(STORE_ITEMS, "song-10").value]
  }

  /** In the catalogue only songs carry song fields, and every song has a difficulty.
      Exactly songs 6, 9 and 10 have a chart file; those also have an audio file, and
      their difficulty is medium. */
  lemma CatalogCharts()
    ensures forall i :: 0 <= i < |STORE_ITEMS| ==>
      var item := STORE_ITEMS[i];
      && (item.kind != Song ==> item.files == NO_FILES)
      && (item.kind == Song ==> item.files.difficulty.Some?)
      && (item.files.chartFile.Some? <==> item.id in {"song-6", "song-9", "song-10"})
      && (item.files.audioFile.Some? <==> item.files.chartFile.Some?)
      && (item.files.chartFile.Some? ==> item.files.difficulty == Some(ChartParser.Medium))
      && (HasChart(item.files) <==> item.files.chartFile.Some?)
  {
    forall i | 0 <= i < |STORE_ITEMS|
      ensures var item := STORE_ITEMS[i];
        && (item.kind != Song ==> item.files == NO_FILES)
        && (item.kind == Song ==> item.files.difficulty.Some?)
        && (item.files.chartFile.Some? <==> item.id in {"song-6", "song-9", "song-10"})
        && (item.files.audioFile.Some? <==> item.files.chartFile.Some?)
        && (item.files.chartFile.Some? ==> item.files.difficulty == Some(ChartParser.Medium))
        && (HasChart(item.files) <==> item.files.chartFile.Some?)
    {
      StoreItemAt(i);
      ChartedIds(i);
    }
  }

  /** Item i of STORE_ITEMS is a song exactly from index 16 on, song number i - 15,
      and carries that number's song fields. */
  lemma StoreItemAt(i: nat)
    requires i < |STORE_ITEMS|
    ensures STORE_ITEMS[i].kind == Song <==> i >= 16
    ensures i >= 16 ==> STORE_ITEMS[i].id == CatalogId(Song, i - 15)
    ensures STORE_ITEMS[i].files == CatalogFiles(STORE_ITEMS[i].kind, if i < 16 then 0 else i - 15)
  {
    var front := Catalog(Guitar, [Common, Rare, Epic, Legendary])
      + Catalog(Clothing, [Common, Common, Rare, Legendary])
      + Catalog(Amp, [Common, Rare, Epic, Legendary])
      + Catalog(Fretboard, [Common, Rare, Epic, Legendary]);
    var songs := Catalog(Song, [Common, Common, Rare, Epic, Legendary, Rare, Epic, Common, Rare, Epic]);
    assert |front| == 16;
    assert STORE_ITEMS == front + songs;
    if i < 16 {
      assert STORE_ITEMS[i] == front[i];
      assert front[i].kind != Song;
    } else {
      assert STORE_ITEMS[i] == songs[i - 16];
    }
  }

  /** The ids of songs 6, 9 and 10 are those of items 21, 24 and 25 and of no other. */
  lemma ChartedIds(i: nat)
    requires i < |STORE_ITEMS|
    ensures STORE_ITEMS[i].id in {"song-6", "song-9", "song-10"} <==> i in {21, 24, 25}
  {
    DefaultSongIds();
    StoreIdsDistinct();
    if STORE_ITEMS[i].id == "song-6" {
      assert STORE_ITEMS[i].id == STORE_ITEMS[21].id;
    } else if STORE_ITEMS[i].id == "song-9" {
      assert STORE_ITEMS[i].id == STORE_ITEMS[24].id;
    } else if STORE_ITEMS[i].id == "song-10" {
      assert STORE_ITEMS[i].id == STORE_ITEMS[25].id;
    }
  }

  /** Every song a new player owns comes with a chart and an audio file, at medium
      difficulty. */
  lemma DefaultSongsCharted()
    ensures forall item :: item in DefaultItems() ==>
      HasChart(item.files) && item.files.audioFile.Some? && item.files.difficulty == Some(ChartParser.Medium)
  {
    var r := DefaultItems();
    StoreItemAt(24);
    StoreItemAt(21);
    StoreItemAt(25);
    assert HasChart(STORE_ITEMS[24].files) && HasChart(STORE_ITEMS[21].files) && HasChart(STORE_ITEMS[25].files);
    assert forall item :: item in r ==> item in {STORE_ITEMS[24], STORE_ITEMS[21], STORE_ITEMS[25]};
  }

  /** `{ ...selectedSong, difficulty }`: the song with the difficulty the player
      picked, everything else kept. */
  function WithDifficulty(song: Item, difficulty: ChartParser.Difficulty): (r: Item)
    ensures r.files.difficulty == Some(difficulty)
    ensures r.id == song.id && r.kind == song.kind && r.rarity == song.rarity
    ensures r.files.chartFile == song.files.chartFile && r.files.audioFile == song.files.audioFile
  {
    song.(files := song.files.(difficulty := Some(difficulty)))
  }

  // ---------------------------------------------------------------------------
  // Wallet

  const START_EMERALDS: int := 1000

  datatype SpendOutcome = SpendOutcome(ok: bool, balance: int)

  /** spendEmeralds on a balance: it goes through exactly when the balance covers the
      amount, and then takes the amount off; otherwise nothing changes. */
  function Spend(balance: int, amount: int): (r: SpendOutcome)
    ensures r.ok <==> balance >= amount
    ensures r.ok ==> r.balance == balance - amount
    ensures !r.ok ==> r.balance == balance
  {
    if balance >= amount then SpendOutcome(true, balance - amount) else SpendOutcome(false, balance)
  }

  /** A spend can never take a non-negative balance below zero. */
  lemma SpendNeverOverdraws(balance: int, amount: int)
    requires balance >= 0
    ensures Spend(balance, amount).balance >= 0
  {
  }

  /** A negative spend, which the store uses for refunds, always succeeds on a
      non-negative balance and raises it by the refunded amount. */
  lemma RefundAlwaysSucceeds(balance: int, refund: nat)
    requires balance >= 0
    ensures Spend(balance, -(refund as int)) == SpendOutcome(true, balance + refund)
  {
  }

  /** Spending and then refunding the same amount restores the balance. */
  lemma SpendThenRefund(balance: int, amount: nat)
    requires balance >= amount
    ensures var first := Spend(balance, amount);
      first.ok && Spend(first.balance, -(amount as int)) == SpendOutcome(true, balance)
  {
  }

  // ---------------------------------------------------------------------------
  // Collection

  /** `items.some((item) => item.id === itemId)`. */
  function HasItem(items: seq<Item>, itemId: string): (r: bool)
    ensures r <==> exists i :: 0 <= i < |items| && items[i].id == itemId
  {
    FindById(items, itemId).Some?
  }

  /** After addItems the player has exactly what they had plus what was added. */
  lemma HasItemAfterAdd(items: seq<Item>, newItems: seq<Item>, itemId: string)
    ensures HasItem(items + newItems, itemId) <==> HasItem(items, itemId) || HasItem(newItems, itemId)
  {
    var s := items + newItems;
    if HasItem(s, itemId) {
      var i :| 0 <= i < |s| && s[i].id == itemId;
      if i >= |items| {
        assert newItems[i - |items|] == s[i];
      }
    }
    if HasItem(items, itemId) {
      var i :| 0 <= i < |items| && items[i].id == itemId;
      assert s[i] == items[i];
    }
    if HasItem(newItems, itemId) {
      var i :| 0 <= i < |newItems| && newItems[i].id == itemId;
      assert s[|items| + i] == newItems[i];
    }
  }

  // ---------------------------------------------------------------------------
  // Avatar settings

  datatype AvatarSettings = AvatarSettings(avatarUrl: string, avatarName: string)

  const DEFAULT_AVATAR_SETTINGS: AvatarSettings := AvatarSettings("", "Rock Star")

  /** A `Partial<AvatarSettings>`: the fields present in the update. */
  datatype AvatarPatch = AvatarPatch(avatarUrl: Option<string>, avatarName: Option<string>)

  /** `{ ...prev, ...settings }`. */
  function Patched(prev: AvatarSettings, settings: AvatarPatch): AvatarSettings {
    AvatarSettings(settings.avatarUrl.GetOr(prev.avatarUrl), settings.avatarName.GetOr(prev.avatarName))
  }

  /** An update overwrites exactly the supplied fields; applying it twice is applying
      it once, and an empty update changes nothing. */
  lemma PatchOverwritesSupplied(prev: AvatarSettings, settings: AvatarPatch)
    ensures var r := Patched(prev, settings);
      && (settings.avatarUrl.Some? ==> r.avatarUrl == settings.avatarUrl.value)
      && (settings.avatarUrl.None? ==> r.avatarUrl == prev.avatarUrl)
      && (settings.avatarName.Some? ==> r.avatarName == settings.avatarName.value)
      && (settings.avatarName.None? ==> r.avatarName == prev.avatarName)
      && Patched(r, settings) == r
      && Patched(prev, AvatarPatch(None, None)) == prev
  {
  }

  /** Everything the provider holds, as one value. */
  datatype PlayerData = PlayerData(emeralds: int, items: seq<Item>, selectedSong: Option<Item>,
                                   avatarSettings: AvatarSettings)

  /** The provider's state. The first-mount effect with nothing saved in storage has
      already run: the collection holds the default songs. */
  class GameState {
    var emeralds: int
    var items: seq<Item>
    var selectedSong: Option<Item>
    var avatarSettings: AvatarSettings

    function Data(): PlayerData
      reads this
    {
      PlayerData(emeralds, items, selectedSong, avatarSettings)
    }

    constructor()
      ensures emeralds == START_EMERALDS && items == DefaultItems()
      ensures selectedSong == None && avatarSettings == DEFAULT_AVATAR_SETTINGS
    {
      emeralds := START_EMERALDS;
      items := DefaultItems();
      selectedSong := None;
      avatarSettings := DEFAULT_AVATAR_SETTINGS;
    }

    /** addEmeralds. */
    method AddEmeralds(amount: int)
      modifies this
      ensures emeralds == old(emeralds) + amount
      ensures items == old(items) && selectedSong == old(selectedSong) && avatarSettings == old(avatarSettings)
    {
      emeralds := emeralds + amount;
    }

    /** spendEmeralds. */
    method SpendEmeralds(amount: int) returns (ok: bool)
      modifies this
      ensures SpendOutcome(ok, emeralds) == Spend(old(emeralds), amount)
      ensures items == old(items) && selectedSong == old(selectedSong) && avatarSettings == old(avatarSettings)
    {
      if emeralds >= amount {
        emeralds := emeralds - amount;
        return true;
      }
      return false;
    }

    /** addItems: the new items go after the existing ones. */
    method AddItems(newItems: seq<Item>)
      modifies this
      ensures items == old(items) + newItems
      ensures emeralds == old(emeralds) && selectedSong == old(selectedSong) && avatarSettings == old(avatarSettings)
    {
      items := items + newItems;
    }

    /** hasItem. */
    function Has(itemId: string): (r: bool)
      reads this
      ensures r <==> exists i :: 0 <= i < |items| && items[i].id == itemId
    {
      HasItem(items, itemId)
    }

    /** selectSong. */
    method SelectSong(song: Option<Item>)
      modifies this
      ensures selectedSong == song
      ensures emeralds == old(emeralds) && items == old(items) && avatarSettings == old(avatarSettings)
    {
      selectedSong := song;
    }

    /** updateAvatarSettings. */
    method UpdateAvatarSettings(settings: AvatarPatch)
      modifies this
      ensures avatarSettings == Patched(old(avatarSettings), settings)
      ensures emeralds == old(emeralds) && items == old(items) && selectedSong == old(selectedSong)
    {
      avatarSettings := Patched(avatarSettings, settings);
    }
  }
}
