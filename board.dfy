/** The board: fields built from the static table, with the mutable ownership, mortgage and
    house state that only property fields carry, and the rent rules over them. */
module Board {
  import opened Wrappers
  import opened BoardDescription

  /** `BoardData.LENGHT`: the number of playable squares. */
  const BOARD_LENGTH := 40
  /** `BoardData.JAIL`: the jail lies outside the playable range 0..39. */
  const JAIL_POSITION := 40
  /** `BoardData.JUST_VISITING`. */
  const JUST_VISITING_POSITION := 10
  /** `BoardData.GO_CASH`: collected on passing GO. */
  const GO_CASH := 200

  lemma JailOutsideTheTrack()
    ensures !(0 <= JAIL_POSITION < BOARD_LENGTH)
    ensures JAIL_POSITION == |FIELDS| - 1 && FIELDS[JAIL_POSITION].ftype == JAIL
    ensures FIELDS[JUST_VISITING_POSITION].ftype == JUST_VISITING
  {
    LandmarkFields();
  }

  /** An attribute a Python object may or may not carry (`hasattr`). */
  datatype Attr<T> = Absent | Present(value: T)

  /** A `Field`: its static record and the attributes `__init__` gives only to some fields. */
  datatype Field = Field(info: FieldRecord, owner: Attr<Option<Uuid>>, mortgage: Attr<bool>, houses: Attr<int>)

  predicate IsProperty(f: Field) { HasFlag(f.info.ftype, PROPERTY) }
  predicate IsStreet(f: Field) { HasFlag(f.info.ftype, STREET) }
  predicate IsTax(f: Field) { f.info.ftype == TAX }
  predicate IsChanceCcCard(f: Field) { HasFlag(f.info.ftype, CARD) }
  predicate IsGoToJail(f: Field) { HasFlag(f.info.ftype, GO_TO_JAIL) }
  predicate IsNonactive(f: Field) { HasFlag(f.info.ftype, NONACTIVE) }

  /** Only property fields carry an owner and a mortgage flag; only streets carry houses. */
  predicate SlotsFit(f: Field) {
    (f.owner.Present? <==> IsProperty(f)) &&
    (f.mortgage.Present? <==> IsProperty(f)) &&
    (f.houses.Present? <==> f.info.ftype == STREET)
  }

  /** `Field.__init__`: a fresh field of the table, unowned, unmortgaged, without houses. */
  function NewField(i: nat): (f: Field)
    requires i < |FIELDS|
    ensures f.info == FIELDS[i] && SlotsFit(f)
    ensures f.owner.Present? ==> f.owner.value == None
    ensures f.mortgage.Present? ==> !f.mortgage.value
    ensures f.houses.Present? ==> f.houses.value == 0
  {
    var r := FIELDS[i];
    Field(r,
          if HasFlag(r.ftype, PROPERTY) then Present(None) else Absent,
          if HasFlag(r.ftype, PROPERTY) then Present(false) else Absent,
          if r.ftype == STREET then Present(0) else Absent)
  }

  /** A board as `BoardData` keeps it: one field per table record, in table order. */
  ghost predicate Generated(fields: seq<Field>) {
    |fields| == |FIELDS| &&
    forall i :: 0 <= i < |fields| ==> fields[i].info == FIELDS[i] && SlotsFit(fields[i])
  }

  /** Replacing one field by one with the same record and fitting slots keeps the board
      generated. */
  lemma GeneratedAfterSet(fields: seq<Field>, i: nat, f: Field)
    requires Generated(fields) && i < |fields|
    requires f.info == fields[i].info && SlotsFit(f)
    ensures Generated(fields[i := f])
  {
  }

  /** The field kinds the turn engine dispatches on, read off a field of a generated board:
      exactly streets, railroads and utilities are properties, each carrying an owner and a
      price; a tax square carries its tax; the card squares are 2, 17, 33 (community chest)
      and 7, 22, 36 (chance). */
  lemma FieldKinds(fields: seq<Field>, i: nat)
    requires Generated(fields) && i < |fields|
    ensures var t := fields[i].info.ftype;
            IsProperty(fields[i]) <==> t == STREET || t == RAILROAD || t == UTILITY
    ensures IsProperty(fields[i]) ==>
              fields[i].owner.Present? && (fields[i].info.data.StreetInfo? || fields[i].info.data.TieredInfo?)
    ensures fields[i].info.ftype == TAX ==> fields[i].info.data.TaxInfo?
    ensures fields[i].info.ftype == CC <==> i == 2 || i == 17 || i == 33
    ensures fields[i].info.ftype == CHANCE <==> i == 7 || i == 22 || i == 36
  {
    RecordsFitTheirType();
    CompositeMembers(fields[i].info.ftype);
    CardSquares();
  }

  /** What the table guarantees about a field of a generated board. */
  lemma FieldFacts(fields: seq<Field>, i: nat)
    requires Generated(fields) && i < |fields|
    ensures IsProperty(fields[i]) <==> IsPropertyRecord(fields[i].info)
    ensures IsStreet(fields[i]) <==> fields[i].info.data.StreetInfo?
    ensures IsStreet(fields[i]) <==> fields[i].info.ftype == STREET
    ensures IsStreet(fields[i]) ==> IsProperty(fields[i])
    ensures IsProperty(fields[i]) ==> i in fields[i].info.data.fullSet && NoRepeats(fields[i].info.data.fullSet)
    ensures IsProperty(fields[i]) ==> forall j :: j in fields[i].info.data.fullSet ==> j < |fields|
    ensures fields[i].info.data.TieredInfo? ==> |fields[i].info.data.rents| == |fields[i].info.data.fullSet|
  {
    RecordsFitTheirType();
    CompositeMembers(fields[i].info.ftype);
    FieldsWellGrouped();
    var s := fields[i].info.data;
    if IsPropertyRecord(fields[i].info) {
      forall j | j in s.fullSet ensures j < |fields| {
        var k :| 0 <= k < |s.fullSet| && s.fullSet[k] == j;
        assert SetMemberAgrees(FIELDS, i, s.fullSet[k]);
      }
    }
  }

  /** Python's `list[item]`: negative indices count from the end; others raise IndexError. */
  function PyIndex(item: int, n: nat): (r: Option<nat>)
    ensures r.Some? <==> -(n as int) <= item < n
    ensures r.Some? ==> r.value < n && (r.value - item) % n == 0
  {
    if 0 <= item < n then Some(item) else if -(n as int) <= item < 0 then Some(item + n) else None
  }

  /** An attribute name and value given to `BoardData.update`; `Other` is any other name. */
  datatype FieldAttribute = OwnerAttr(owner: Option<Uuid>) | HousesAttr(houses: int) | MortgageAttr(mortgage: bool) | Other(name: string)

  /** `setattr` on one field as `BoardData.update` allows it: only owner, houses or mortgage,
      and only when the field already carries that attribute. */
  function SetAttribute(f: Field, a: FieldAttribute): (r: Result<Field>)
    ensures r.Failure? ==> r.error == AttributeError
    ensures r.Success? <==> (a.OwnerAttr? && f.owner.Present?) || (a.HousesAttr? && f.houses.Present?) ||
                            (a.MortgageAttr? && f.mortgage.Present?)
    ensures r.Success? ==> r.value.info == f.info && (SlotsFit(f) ==> SlotsFit(r.value))
    ensures r.Success? ==> r.value.owner == (if a.OwnerAttr? then Present(a.owner) else f.owner)
    ensures r.Success? ==> r.value.houses == (if a.HousesAttr? then Present(a.houses) else f.houses)
    ensures r.Success? ==> r.value.mortgage == (if a.MortgageAttr? then Present(a.mortgage) else f.mortgage)
  {
    match a
    case OwnerAttr(o) => if f.owner.Present? then Success(f.(owner := Present(o))) else Failure(AttributeError)
    case HousesAttr(h) => if f.houses.Present? then Success(f.(houses := Present(h))) else Failure(AttributeError)
    case MortgageAttr(m) => if f.mortgage.Present? then Success(f.(mortgage := Present(m))) else Failure(AttributeError)
    case Other(_) => Failure(AttributeError)
  }

  /** `BoardData.streets`: the STREET fields, in board order. */
  function Streets(fields: seq<Field>): (r: seq<Field>)
    ensures |r| <= |fields|
  {
    if fields == [] then []
    else (if fields[0].info.ftype == STREET then [fields[0]] else []) + Streets(fields[1..])
  }

  /** Filtering distributes over concatenation, so `Streets` keeps board order. */
  lemma {:induction false} StreetsOfConcat(a: seq<Field>, b: seq<Field>)
    ensures Streets(a + b) == Streets(a) + Streets(b)
  {
    if a == [] {
      assert a + b == b;
    } else {
      var head := if a[0].info.ftype == STREET then [a[0]] else [];
      assert (a + b)[0] == a[0];
      assert (a + b)[1..] == a[1..] + b;
      calc {
        Streets(a + b);
        head + Streets(a[1..] + b);
        { StreetsOfConcat(a[1..], b); }
        head + (Streets(a[1..]) + Streets(b));
        (head + Streets(a[1..])) + Streets(b);
      }
    }
  }

  /** `Streets` keeps exactly the STREET fields. */
  lemma {:induction false} StreetsMembers(fields: seq<Field>, f: Field)
    ensures f in Streets(fields) <==> f in fields && f.info.ftype == STREET
  {
    if fields != [] {
      StreetsMembers(fields[1..], f);
      assert fields == [fields[0]] + fields[1..];
    }
  }

  /** The positions of a field's set that hold its owner (its own included). */
  ghost function OwnedMembers(fields: seq<Field>, i: nat): set<nat>
    requires i < |fields| && IsPropertyRecord(fields[i].info)
  {
    set j: nat | j < |fields| && j in fields[i].info.data.fullSet && fields[j].owner == fields[i].owner
  }

  /** `get_properties_in_set_owned`: how many fields of the set have this field's owner. */
  function PropertiesInSetOwned(fields: seq<Field>, i: nat): (n: nat)
    requires i < |fields| && IsPropertyRecord(fields[i].info)
  {
    |set j: nat | j < |fields| && j in fields[i].info.data.fullSet && fields[j].owner == fields[i].owner|
  }

  /** `has_full_set`: every field of the set has this field's owner. */
  predicate HasFullSet(fields: seq<Field>, i: nat)
    requires i < |fields| && IsPropertyRecord(fields[i].info)
  {
    forall j :: 0 <= j < |fields| && j in fields[i].info.data.fullSet ==> fields[j].owner == fields[i].owner
  }

  /** A sequence without repeats has as many distinct elements as entries. */
  ghost function Elements(s: seq<nat>): set<nat> {
    set x | x in s
  }

  lemma {:induction false} DistinctCard(s: seq<nat>)
    requires NoRepeats(s)
    ensures |Elements(s)| == |s|
  {
    if s != [] {
      var tail := s[1..];
      assert NoRepeats(tail) by {
        forall k, m | 0 <= k < m < |tail| ensures tail[k] != tail[m] {
          assert tail[k] == s[k + 1] && tail[m] == s[m + 1];
        }
      }
      DistinctCard(tail);
      var rest := Elements(tail);
      assert s[0] !in rest by {
        forall m | 0 <= m < |tail| ensures tail[m] != s[0] {
          assert tail[m] == s[m + 1];
        }
      }
      assert Elements(s) == rest + {s[0]} by {
        assert s == [s[0]] + tail;
      }
      assert |rest + {s[0]}| == |rest| + 1;
    }
  }

  /** The set count of a field whose set lists it once and without repeats. */
  lemma SetCountBounds(fields: seq<Field>, i: nat)
    requires i < |fields| && IsPropertyRecord(fields[i].info)
    requires i in fields[i].info.data.fullSet && NoRepeats(fields[i].info.data.fullSet)
    ensures 1 <= PropertiesInSetOwned(fields, i) <= |fields[i].info.data.fullSet|
    ensures (forall j :: j in fields[i].info.data.fullSet ==> j < |fields|) && HasFullSet(fields, i) ==>
              PropertiesInSetOwned(fields, i) == |fields[i].info.data.fullSet|
  {
    var s := fields[i].info.data.fullSet;
    var owned := set j: nat | j < |fields| && j in s && fields[j].owner == fields[i].owner;
    var members := Elements(s);
    DistinctCard(s);
    assert i in owned;
    assert owned <= members;
    assert |owned| <= |members| by { SubsetCard(owned, members); }
    if HasFullSet(fields, i) && forall j :: j in s ==> j < |fields| {
      assert members <= owned;
      SubsetCard(members, owned);
    }
  }

  /** A subset is no larger than its superset. */
  lemma {:induction false} SubsetCard(a: set<nat>, b: set<nat>)
    requires a <= b
    ensures |a| <= |b|
    decreases |b|
  {
    if a != {} {
      var x :| x in a;
      SubsetCard(a - {x}, b - {x});
    }
  }

  /** The set count includes the field itself and never exceeds the size of the set. */
  lemma OwnedCountBounds(fields: seq<Field>, i: nat)
    requires Generated(fields) && i < |fields| && IsProperty(fields[i])
    ensures 1 <= PropertiesInSetOwned(fields, i) <= |fields[i].info.data.fullSet|
  {
    FieldFacts(fields, i);
    SetCountBounds(fields, i);
  }

  /** A complete set is exactly one where the count reaches the size of the set. */
  lemma FullSetIffAllCounted(fields: seq<Field>, i: nat)
    requires Generated(fields) && i < |fields| && IsProperty(fields[i])
    ensures HasFullSet(fields, i) <==> PropertiesInSetOwned(fields, i) == |fields[i].info.data.fullSet|
  {
    FieldFacts(fields, i);
    SetCountBounds(fields, i);
    if !HasFullSet(fields, i) {
      MissingMemberShrinksCount(fields, i);
    }
  }

  /** A set member with another owner leaves the count short of the set size. */
  lemma MissingMemberShrinksCount(fields: seq<Field>, i: nat)
    requires i < |fields| && IsPropertyRecord(fields[i].info)
    requires NoRepeats(fields[i].info.data.fullSet) && !HasFullSet(fields, i)
    ensures PropertiesInSetOwned(fields, i) < |fields[i].info.data.fullSet|
  {
    var s := fields[i].info.data.fullSet;
    var owned := set j: nat | j < |fields| && j in s && fields[j].owner == fields[i].owner;
    var members := Elements(s);
    DistinctCard(s);
    var j :| 0 <= j < |fields| && j in s && fields[j].owner != fields[i].owner;
    assert owned <= members - {j};
    SubsetCard(owned, members - {j});
  }

  /** `Field.rent`: None for non-property fields; a street charges by its house count (a hotel
      being five houses) and, without houses, double for a complete set; a railroad or a
      utility charges the tier of how many fields of its set the owner holds (for a utility
      this is the multiplier of the dice sum). */
  function Rent(fields: seq<Field>, i: nat): (r: Option<int>)
    requires Generated(fields) && i < |fields|
    ensures r.Some? <==> IsProperty(fields[i])
  {
    FieldFacts(fields, i);
    var f := fields[i];
    if !IsProperty(f) then None
    else if IsStreet(f) then
      var s := f.info.data;
      var h := f.houses.value;
      Some(if h == 1 then s.house1 else if h == 2 then s.house2 else if h == 3 then s.house3
           else if h == 4 then s.house4 else if h == 5 then s.hotel
           else if HasFullSet(fields, i) then s.doubleRent else s.rent)
    else
      OwnedCountBounds(fields, i);
      Some(f.info.data.rents[PropertiesInSetOwned(fields, i) - 1])
  }

  /** An unbuilt street charges its base rent, doubled when the owner holds the whole set. */
  lemma UnbuiltStreetRent(fields: seq<Field>, i: nat)
    requires Generated(fields) && i < |fields| && IsStreet(fields[i])
    requires !(1 <= fields[i].houses.value <= 5)
    ensures Rent(fields, i) == Some(if HasFullSet(fields, i) then 2 * fields[i].info.data.rent else fields[i].info.data.rent)
  {
    FieldFacts(fields, i);
    StreetTiers();
  }

  /** Building raises the rent: each further house (and the hotel) charges strictly more, and
      every built tier exceeds what the unbuilt street charges even for a complete set. */
  lemma RentRisesWithHouses(fields: seq<Field>, i: nat, h: int)
    requires Generated(fields) && i < |fields| && IsStreet(fields[i])
    requires 0 <= h < 5
    ensures var built := fields[i := fields[i].(houses := Present(h + 1))];
            var fewer := fields[i := fields[i].(houses := Present(h))];
            Generated(built) && Generated(fewer) && Rent(fewer, i).value < Rent(built, i).value
  {
    FieldFacts(fields, i);
    StreetTiers();
    var built := fields[i := fields[i].(houses := Present(h + 1))];
    var fewer := fields[i := fields[i].(houses := Present(h))];
    assert Generated(built) by {
      forall j | 0 <= j < |built| ensures built[j].info == FIELDS[j] && SlotsFit(built[j]) {
        if j != i { assert built[j] == fields[j]; }
      }
    }
    assert Generated(fewer) by {
      forall j | 0 <= j < |fewer| ensures fewer[j].info == FIELDS[j] && SlotsFit(fewer[j]) {
        if j != i { assert fewer[j] == fields[j]; }
      }
    }
    FieldFacts(built, i);
    FieldFacts(fewer, i);
  }

  /** Railroads charge 25, 50, 100 or 200 as the owner holds 1 to 4 of them. */
  lemma RailroadRent(fields: seq<Field>, i: nat)
    requires Generated(fields) && i < |fields| && fields[i].info.ftype == RAILROAD
    ensures 1 <= PropertiesInSetOwned(fields, i) <= 4
    ensures Rent(fields, i) == Some([25, 50, 100, 200][PropertiesInSetOwned(fields, i) - 1])
  {
    FieldFacts(fields, i);
    TieredRents();
    OwnedCountBounds(fields, i);
  }

  /** A utility multiplies the dice sum by 4, or by 10 when the owner holds both. */
  lemma UtilityMultiplier(fields: seq<Field>, i: nat)
    requires Generated(fields) && i < |fields| && fields[i].info.ftype == UTILITY
    ensures Rent(fields, i) == Some(if HasFullSet(fields, i) then 10 else 4)
  {
    FieldFacts(fields, i);
    TieredRents();
    OwnedCountBounds(fields, i);
    FullSetIffAllCounted(fields, i);
  }

  /** The rent of Old Kent Road with two houses, set not complete, is 30. */
  lemma OldKentRoadWithTwoHouses(fields: seq<Field>)
    requires Generated(fields) && fields[1].houses == Present(2)
    ensures Rent(fields, 1) == Some(30)
  {
    FieldFacts(fields, 1);
  }

  /** The board with its mutable field state. */
  class BoardData {
    var fields: seq<Field>

    ghost predicate Valid()
      reads this
    {
      Generated(fields)
    }

    /** `__init__` / `_generate_fields`: one fresh field per table record. */
    constructor ()
      ensures Valid()
      ensures forall i :: 0 <= i < |fields| ==> fields[i] == NewField(i)
    {
      var generated: seq<Field> := [];
      var i := 0;
      while i < |FIELDS|
        invariant 0 <= i <= |FIELDS|
        invariant |generated| == i
        invariant forall j :: 0 <= j < i ==> generated[j] == NewField(j)
      {
        generated := generated + [NewField(i)];
        i := i + 1;
      }
      fields := generated;
    }

    /** `update`: sets owner, houses or mortgage of the field at `item`; anything else raises. */
    method Update(item: int, attribute: FieldAttribute) returns (r: Outcome)
      requires Valid()
      modifies this
      ensures Valid()
      ensures PyIndex(item, |old(fields)|).None? ==> r == Fail(IndexError) && fields == old(fields)
      ensures PyIndex(item, |old(fields)|).Some? ==>
        var k := PyIndex(item, |old(fields)|).value;
        match SetAttribute(old(fields)[k], attribute)
        case Failure(e) => r == Fail(e) && fields == old(fields)
        case Success(f) => r == Pass && fields == old(fields)[k := f]
    {
      var index := PyIndex(item, |fields|);
      if index.None? {
        return Fail(IndexError);
      }
      var k := index.value;
      var updated := SetAttribute(fields[k], attribute);
      if updated.Failure? {
        return Fail(updated.error);
      }
      fields := fields[k := updated.value];
      r := Pass;
    }
  }
}
