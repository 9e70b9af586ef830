/** The piggy bank: a pig that holds coins and items up to a maximum volume
    while it is intact, and gives them back, coins and items separately,
    once it has been broken. Values are `real`, volumes exact integers. */
module PiggyBank {
  import opened Results

  datatype PigError =
    | NonPositiveVolume     // an item, or an item's new volume, of zero or less
    | NegativeValue         // an item of negative value
    | NonPositiveCapacity   // a pig whose maximum volume is zero or less
    | PigBroken             // inserting into a broken pig
    | VolumeExceeded        // inserting past the maximum volume
    | AlreadyBroken         // breaking a pig twice
    | PigIntact             // taking valuables out of an intact pig

  // ---------------------------------------------------------------------
  // Coins
  // ---------------------------------------------------------------------

  /** The four coin denominations, each with a fixed label, value and volume. */
  datatype CoinType = M10 | M25 | M50 | M100 {

    /** Each label is the letter M followed by the value in cents. */
    function Label(): (l: string)
      ensures |l| >= 3 && l[0] == 'M'
    {
      match this
      case M10 => "M10"
      case M25 => "M25"
      case M50 => "M50"
      case M100 => "M100"
    }

    /** Every coin is worth something, and at most one unit. */
    function Value(): (v: real)
      ensures 0.0 < v <= 1.0
    {
      match this
      case M10 => 0.10
      case M25 => 0.25
      case M50 => 0.50
      case M100 => 1.00
    }

    /** Every coin takes up room. */
    function Volume(): (v: int)
      ensures v > 0
    {
      match this
      case M10 => 1
      case M25 => 2
      case M50 => 3
      case M100 => 4
    }
  }

  // ---------------------------------------------------------------------
  // Items
  // ---------------------------------------------------------------------

  /** A labelled object of positive volume and non-negative value. Its
      label (`name` here) and volume can be changed after creation; its value cannot. */
  class Item {
    var name: string
    var volume: int
    const value: real

    ghost predicate Valid()
      reads this
    {
      volume > 0 && value >= 0.0
    }

    constructor (name: string, volume: int, value: real)
      requires volume > 0 && value >= 0.0
      ensures Valid()
      ensures this.name == name && this.volume == volume && this.value == value
    {
      this.name := name;
      this.volume := volume;
      this.value := value;
    }

    /** Creates an item, refusing a volume of zero or less first and a
        negative value second. */
    static method Create(name: string, volume: int, value: real) returns (r: Result<Item, PigError>)
      ensures volume <= 0 ==> r == Err(NonPositiveVolume)
      ensures volume > 0 && value < 0.0 ==> r == Err(NegativeValue)
      ensures r.Ok? <==> volume > 0 && value >= 0.0
      ensures r.Ok? ==> fresh(r.value) && r.value.Valid()
      ensures r.Ok? ==> r.value.name == name && r.value.volume == volume && r.value.value == value
    {
      if volume <= 0 {
        return Err(NonPositiveVolume);
      }
      if value < 0.0 {
        return Err(NegativeValue);
      }
      var item := new Item(name, volume, value);
      r := Ok(item);
    }

    method SetName(name: string)
      modifies this
      ensures this.name == name && volume == old(volume)
    {
      this.name := name;
    }

    /** Changes the volume, refusing zero or less, so an item's volume stays
        positive. */
    method SetVolume(volume: int) returns (st: Status<PigError>)
      requires Valid()
      modifies this
      ensures Valid()
      ensures name == old(name)
      ensures volume <= 0 ==> st == Failed(NonPositiveVolume) && this.volume == old(this.volume)
      ensures volume > 0 ==> st == Done && this.volume == volume
    {
      if volume <= 0 {
        return Failed(NonPositiveVolume);
      }
      this.volume := volume;
      st := Done;
    }
  }

  // ---------------------------------------------------------------------
  // Valuables and their sums
  // ---------------------------------------------------------------------

  /** What a pig can hold: a coin, or a reference to an item. */
  datatype Valuable = Coin(ctype: CoinType) | ItemRef(item: Item)

  function ValueOf(v: Valuable): real
  {
    match v
    case Coin(c) => c.Value()
    case ItemRef(i) => i.value
  }

  function VolumeOf(v: Valuable): int
    reads if v.ItemRef? then {v.item} else {}
  {
    match v
    case Coin(c) => c.Volume()
    case ItemRef(i) => i.volume
  }

  /** The items referred to by a list of valuables. */
  function ItemsOf(vs: seq<Valuable>): set<Item>
  {
    set v | v in vs && v.ItemRef? :: v.item
  }

  /** The value of a list of valuables; it is never negative when no item
      in it has a negative value. */
  function SumValue(vs: seq<Valuable>): (r: real)
    ensures (forall i :: i in ItemsOf(vs) ==> i.value >= 0.0) ==> r >= 0.0
  {
    if vs == [] then 0.0 else SumValue(vs[..|vs| - 1]) + ValueOf(vs[|vs| - 1])
  }

  /** The volume of a list of valuables; when every item in it has a
      positive volume, each valuable takes up at least one unit. */
  function SumVolume(vs: seq<Valuable>): (r: int)
    reads ItemsOf(vs)
    ensures (forall i :: i in ItemsOf(vs) ==> i.volume > 0) ==> r >= |vs|
  {
    if vs == [] then 0
    else
      assert vs[..|vs| - 1] <= vs;
      SumVolume(vs[..|vs| - 1]) + VolumeOf(vs[|vs| - 1])
  }

  /** The valuables of one kind, coins when `coins` holds and items
      otherwise, in their original order. */
  function Keep(vs: seq<Valuable>, coins: bool): (r: seq<Valuable>)
    ensures forall v :: v in r ==> v in vs && v.Coin? == coins
    ensures |r| <= |vs|
  {
    if vs == [] then []
    else Keep(vs[..|vs| - 1], coins) + (if vs[|vs| - 1].Coin? == coins then [vs[|vs| - 1]] else [])
  }

  /** Keeping one kind distributes over concatenation: the kept valuables
      come out in the order they went in. */
  lemma {:induction false} KeepAppend(vs: seq<Valuable>, ws: seq<Valuable>, coins: bool)
    ensures Keep(vs + ws, coins) == Keep(vs, coins) + Keep(ws, coins)
    decreases |ws|
  {
    if ws != [] {
      var last := |ws| - 1;
      assert (vs + ws)[..|vs + ws| - 1] == vs + ws[..last];
      KeepAppend(vs, ws[..last], coins);
    } else {
      assert vs + ws == vs;
    }
  }

  /** The coins and the items of a list together are a rearrangement of it. */
  lemma {:induction false} KeepSplits(vs: seq<Valuable>)
    ensures multiset(Keep(vs, true)) + multiset(Keep(vs, false)) == multiset(vs)
  {
    if vs != [] {
      var init := vs[..|vs| - 1];
      KeepSplits(init);
      assert vs == init + [vs[|vs| - 1]];
    }
  }

  /** The coins and the items of a list together hold all its value. */
  lemma {:induction false} KeepSplitsValue(vs: seq<Valuable>)
    ensures SumValue(Keep(vs, true)) + SumValue(Keep(vs, false)) == SumValue(vs)
  {
    if vs != [] {
      var init := vs[..|vs| - 1];
      var v := vs[|vs| - 1];
      KeepSplitsValue(init);
      SumValueAppend(init, v);
      if v.Coin? {
        assert Keep(vs, true) == Keep(init, true) + [v];
        assert Keep(vs, false) == Keep(init, false);
        SumValueAppend(Keep(init, true), v);
      } else {
        assert Keep(vs, true) == Keep(init, true);
        assert Keep(vs, false) == Keep(init, false) + [v];
        SumValueAppend(Keep(init, false), v);
      }
    }
  }

  lemma SumValueAppend(vs: seq<Valuable>, v: Valuable)
    ensures SumValue(vs + [v]) == SumValue(vs) + ValueOf(v)
  {
    assert (vs + [v])[..|vs + [v]| - 1] == vs;
  }

  lemma SumVolumeAppend(vs: seq<Valuable>, v: Valuable)
    ensures SumVolume(vs + [v]) == SumVolume(vs) + VolumeOf(v)
  {
    assert (vs + [v])[..|vs + [v]| - 1] == vs;
  }

  /** Once one kind has been taken out, taking it out again yields nothing
      and taking the other kind out leaves nothing behind. */
  lemma {:induction false} KeepTwice(vs: seq<Valuable>, coins: bool)
    ensures Keep(Keep(vs, coins), coins) == Keep(vs, coins)
    ensures Keep(Keep(vs, coins), !coins) == []
  {
    if vs != [] {
      var init := vs[..|vs| - 1];
      var v := vs[|vs| - 1];
      KeepTwice(init, coins);
      KeepAppend(Keep(init, coins), if v.Coin? == coins then [v] else [], coins);
      KeepAppend(Keep(init, coins), if v.Coin? == coins then [v] else [], !coins);
    }
  }

  // ---------------------------------------------------------------------
  // The pig
  // ---------------------------------------------------------------------

  class Pig {
    var broken: bool
    var valuables: seq<Valuable>
    const volumeMax: int

    /** The capacity is positive and an intact pig holds no more than it.
        Resizing an item after it went in is not guarded, so only the
        pig's own operations are known to keep this. */
    ghost predicate Valid()
      reads this, ItemsOf(valuables)
    {
      volumeMax > 0 && Volume() <= volumeMax
    }

    /** A new pig is intact and empty. */
    constructor (volumeMax: int)
      requires volumeMax > 0
      ensures Valid()
      ensures !broken && valuables == [] && this.volumeMax == volumeMax
    {
      broken := false;
      valuables := [];
      this.volumeMax := volumeMax;
    }

    /** Creates a pig, refusing a maximum volume of zero or less. */
    static method Create(volumeMax: int) returns (r: Result<Pig, PigError>)
      ensures r.Err? <==> volumeMax <= 0
      ensures r.Err? ==> r.error == NonPositiveCapacity
      ensures r.Ok? ==> fresh(r.value) && r.value.Valid()
      ensures r.Ok? ==> !r.value.broken && r.value.valuables == []
      ensures r.Ok? ==> r.value.volumeMax == volumeMax
    {
      if volumeMax <= 0 {
        return Err(NonPositiveCapacity);
      }
      var pig := new Pig(volumeMax);
      r := Ok(pig);
    }

    /** The volume taken up inside the pig: none once it is broken. */
    function Volume(): (r: int)
      reads this, ItemsOf(valuables)
      ensures broken ==> r == 0
      ensures !broken ==> r == SumVolume(valuables)
      ensures !broken && (forall i :: i in ItemsOf(valuables) ==> i.volume > 0) ==> r >= |valuables|
    {
      if broken then 0 else SumVolume(valuables)
    }

    /** The value of everything still inside, broken or not. */
    function Value(): (r: real)
      reads this
      ensures r == SumValue(valuables)
      ensures (forall i :: i in ItemsOf(valuables) ==> i.value >= 0.0) ==> r >= 0.0
    {
      SumValue(valuables)
    }

    /** Inserts a valuable into an intact pig if it fits. */
    method AddValuable(v: Valuable) returns (st: Status<PigError>)
      modifies this
      ensures broken == old(broken)
      ensures old(broken) ==> st == Failed(PigBroken) && valuables == old(valuables)
      ensures !old(broken) && old(Volume()) + VolumeOf(v) > volumeMax ==>
        st == Failed(VolumeExceeded) && valuables == old(valuables)
      ensures !old(broken) && old(Volume()) + VolumeOf(v) <= volumeMax ==>
        st == Done && valuables == old(valuables) + [v]
      ensures st == Done ==> Volume() == old(Volume()) + VolumeOf(v) <= volumeMax
      ensures old(Valid()) ==> Valid()
    {
      if broken {
        return Failed(PigBroken);
      }
      var newVolume := Volume() + VolumeOf(v);
      if newVolume > volumeMax {
        return Failed(VolumeExceeded);
      }
      ghost var before := valuables;
      valuables := valuables + [v];
      SumVolumeAppend(before, v);
      assert forall i :: i in ItemsOf(before) ==> unchanged(i);
      st := Done;
    }

    /** Breaks the pig; it can be broken only once. */
    method BreakPig() returns (st: Status<PigError>)
      modifies this
      ensures broken && valuables == old(valuables)
      ensures st == (if old(broken) then Failed(AlreadyBroken) else Done)
      ensures Volume() == 0
      ensures volumeMax > 0 ==> Valid()
    {
      if broken {
        return Failed(AlreadyBroken);
      }
      broken := true;
      st := Done;
    }

    /** Takes the coins out of a broken pig, leaving its items. */
    method GetCoins() returns (r: Result<seq<Valuable>, PigError>)
      modifies this
      ensures broken == old(broken)
      ensures !broken ==> r == Err(PigIntact) && valuables == old(valuables)
      ensures broken ==> r == Ok(Keep(old(valuables), true)) && valuables == Keep(old(valuables), false)
      ensures r.Ok? ==> multiset(r.value) + multiset(valuables) == multiset(old(valuables))
      ensures r.Ok? ==> SumValue(r.value) + Value() == old(Value())
      ensures old(Valid()) ==> Valid()
    {
      if !broken {
        return Err(PigIntact);
      }
      KeepSplits(valuables);
      KeepSplitsValue(valuables);
      var coins := Keep(valuables, true);
      valuables := Keep(valuables, false);
      r := Ok(coins);
    }

    /** Takes the items out of a broken pig, leaving its coins. */
    method GetItems() returns (r: Result<seq<Valuable>, PigError>)
      modifies this
      ensures broken == old(broken)
      ensures !broken ==> r == Err(PigIntact) && valuables == old(valuables)
      ensures broken ==> r == Ok(Keep(old(valuables), false)) && valuables == Keep(old(valuables), true)
      ensures r.Ok? ==> multiset(r.value) + multiset(valuables) == multiset(old(valuables))
      ensures r.Ok? ==> SumValue(r.value) + Value() == old(Value())
      ensures old(Valid()) ==> Valid()
    {
      if !broken {
        return Err(PigIntact);
      }
      KeepSplits(valuables);
      KeepSplitsValue(valuables);
      var items := Keep(valuables, false);
      valuables := Keep(valuables, true);
      r := Ok(items);
    }
  }
}
