/** The static description of the board: the `FieldType` flag enumeration and the 41 field
    records (40 squares plus the jail, which lies outside the playable range). */
module BoardDescription {

  /** `FieldType` is a `Flag` enumeration: each base member is one bit, in the order `auto()`
      numbers them, and the composite members are unions of base members. */
  type FieldType = bv16

  const STREET: FieldType := 1
  const CC: FieldType := 2
  const CHANCE: FieldType := 4
  const RAILROAD: FieldType := 8
  const UTILITY: FieldType := 16
  const JAIL: FieldType := 32
  const GO_TO_JAIL: FieldType := 64
  const GO: FieldType := 128
  const FREE_PARKING: FieldType := 256
  const JUST_VISITING: FieldType := 512
  const TAX: FieldType := 1024

  const PROPERTY: FieldType := STREET | RAILROAD | UTILITY
  const CARD: FieldType := CC | CHANCE
  const NONACTIVE: FieldType := GO | JUST_VISITING | FREE_PARKING

  /** The eleven base members of the enumeration. */
  predicate IsBaseType(t: FieldType) {
    t == STREET || t == CC || t == CHANCE || t == RAILROAD || t == UTILITY || t == JAIL ||
    t == GO_TO_JAIL || t == GO || t == FREE_PARKING || t == JUST_VISITING || t == TAX
  }

  /** `bool(t & flag)`: the membership test the source uses for composite members. */
  predicate HasFlag(t: FieldType, flag: FieldType) {
    t & flag != 0
  }

  /** On a base member, testing against a composite member is testing for one of its parts. */
  lemma CompositeMembers(t: FieldType)
    requires IsBaseType(t)
    ensures HasFlag(t, PROPERTY) <==> t == STREET || t == RAILROAD || t == UTILITY
    ensures HasFlag(t, CARD) <==> t == CC || t == CHANCE
    ensures HasFlag(t, NONACTIVE) <==> t == GO || t == JUST_VISITING || t == FREE_PARKING
    ensures HasFlag(t, t) && forall u :: IsBaseType(u) && u != t ==> !HasFlag(t, u)
  {
  }

  datatype StreetColor = Brown | LBlue | Purple | Orange | Red | Yellow | Green | DBlue

  /** The category-specific part of a record. `fullSet` lists the board positions of the fields
      that make up the set (the source lists their string keys, which are unique). */
  datatype FieldInfo =
    | NoInfo
    | TaxInfo(tax: int)
    | StreetInfo(color: StreetColor, fullSet: seq<nat>, price: int, rent: int, doubleRent: int,
                 house1: int, house2: int, house3: int, house4: int, hotel: int,
                 housePrice: int, hotelPrice: int, mortgageValue: int, unmortgagePrice: int)
      /** Railroads and utilities: `rents[0]` is "rent", `rents[k - 1]` is "rent_k". */
    | TieredInfo(fullSet: seq<nat>, price: int, rents: seq<int>, mortgageValue: int,
                 unmortgagePrice: int)

  /** One entry of `FIELDS`: `key` is the record's "index" string. */
  datatype FieldRecord = FieldRecord(key: string, ftype: FieldType, name: string, data: FieldInfo)

  const FIELDS: seq<FieldRecord> := [
    FieldRecord("go", GO, "Go", NoInfo),  // 0
    FieldRecord("brown_1", STREET, "Old Kent Road", StreetInfo(Brown, [1, 3], 60, 2, 4, 10, 30, 90, 160, 250, 50, 50, 30, 33)),  // 1
    FieldRecord("cc_1", CC, "Community Chest", NoInfo),  // 2
    FieldRecord("brown_2", STREET, "Whitechapel Road", StreetInfo(Brown, [1, 3], 60, 4, 8, 20, 60, 180, 320, 450, 50, 50, 30, 33)),  // 3
    FieldRecord("tax_1", TAX, "Income Tax", TaxInfo(200)),  // 4
    FieldRecord("railroad_1", RAILROAD, "Kings Cross Station", TieredInfo([5, 15, 25, 35], 200, [25, 50, 100, 200], 100, 110)),  // 5
    FieldRecord("light_blue_1", STREET, "The Angel, Islington", StreetInfo(LBlue, [6, 8, 9], 100, 6, 12, 30, 90, 270, 400, 550, 50, 50, 50, 55)),  // 6
    FieldRecord("chance_1", CHANCE, "Chance", NoInfo),  // 7
    FieldRecord("light_blue_2", STREET, "Euston Road", StreetInfo(LBlue, [6, 8, 9], 100, 6, 12, 30, 90, 270, 400, 550, 50, 50, 50, 55)),  // 8
    FieldRecord("light_blue_3", STREET, "Pentonville Road", StreetInfo(LBlue, [6, 8, 9], 120, 8, 16, 40, 100, 300, 450, 600, 50, 50, 60, 66)),  // 9
    FieldRecord("just_visiting", JUST_VISITING, "Just Visiting", NoInfo),  // 10
    FieldRecord("purple_1", STREET, "Pall Mall", StreetInfo(Purple, [11, 13, 14], 140, 10, 20, 50, 150, 450, 625, 750, 100, 100, 70, 77)),  // 11
    FieldRecord("utility_1", UTILITY, "Electric Company", TieredInfo([12, 28], 150, [4, 10], 75, 83)),  // 12
    FieldRecord("purple_2", STREET, "Whitehall", StreetInfo(Purple, [11, 13, 14], 140, 10, 20, 50, 150, 450, 625, 750, 100, 100, 70, 77)),  // 13
    FieldRecord("purple_3", STREET, "Northumbld Avenue", StreetInfo(Purple, [11, 13, 14], 160, 12, 24, 60, 180, 500, 700, 900, 100, 100, 80, 88)),  // 14
    FieldRecord("railroad_2", RAILROAD, "Marylebone Station", TieredInfo([5, 15, 25, 35], 200, [25, 50, 100, 200], 100, 110)),  // 15
    FieldRecord("orange_1", STREET, "Bow Street", StreetInfo(Orange, [16, 18, 19], 180, 14, 28, 70, 200, 550, 750, 950, 100, 100, 90, 99)),  // 16
    FieldRecord("cc_2", CC, "Community Chest", NoInfo),  // 17
    FieldRecord("orange_2", STREET, "Marlborough Street", StreetInfo(Orange, [16, 18, 19], 180, 14, 28, 70, 200, 550, 750, 950, 100, 100, 90, 99)),  // 18
    FieldRecord("orange_3", STREET, "Vine Street", StreetInfo(Orange, [16, 18, 19], 200, 16, 32, 80, 220, 600, 800, 1000, 100, 100, 100, 110)),  // 19
    FieldRecord("free_parking", FREE_PARKING, "Free Parking", NoInfo),  // 20
    FieldRecord("red_1", STREET, "Strand", StreetInfo(Red, [21, 23, 24], 220, 18, 36, 90, 250, 700, 875, 1050, 150, 150, 110, 121)),  // 21
    FieldRecord("chance_2", CHANCE, "Chance", NoInfo),  // 22
    FieldRecord("red_2", STREET, "Fleet Street", StreetInfo(Red, [21, 23, 24], 220, 18, 36, 90, 250, 700, 875, 1050, 150, 150, 110, 121)),  // 23
    FieldRecord("red_3", STREET, "Trafalgar Square", StreetInfo(Red, [21, 23, 24], 240, 20, 40, 100, 300, 750, 925, 1100, 150, 150, 120, 132)),  // 24
    FieldRecord("railroad_3", RAILROAD, "Fenchurch St. Station", TieredInfo([5, 15, 25, 35], 200, [25, 50, 100, 200], 100, 110)),  // 25
    FieldRecord("yellow_1", STREET, "Leicester Square", StreetInfo(Yellow, [26, 27, 29], 260, 22, 44, 110, 330, 800, 975, 1150, 150, 150, 130, 143)),  // 26
    FieldRecord("yellow_2", STREET, "Coventry Street", StreetInfo(Yellow, [26, 27, 29], 260, 22, 44, 110, 330, 800, 975, 1150, 150, 150, 130, 143)),  // 27
    FieldRecord("utility_2", UTILITY, "Water Works", TieredInfo([12, 28], 150, [4, 10], 75, 83)),  // 28
    FieldRecord("yellow_3", STREET, "Piccadilly", StreetInfo(Yellow, [26, 27, 29], 280, 24, 48, 120, 360, 850, 1025, 1200, 150, 150, 140, 154)),  // 29
    FieldRecord("go_to_jail", GO_TO_JAIL, "Go To Jail", NoInfo),  // 30
    FieldRecord("green_1", STREET, "Regent Street", StreetInfo(Green, [31, 32, 34], 300, 26, 52, 130, 390, 900, 1100, 1275, 200, 200, 150, 165)),  // 31
    FieldRecord("green_2", STREET, "Oxford Street", StreetInfo(Green, [31, 32, 34], 300, 26, 52, 130, 390, 900, 1100, 1275, 200, 200, 150, 165)),  // 32
    FieldRecord("cc_3", CC, "Community Chest", NoInfo),  // 33
    FieldRecord("green_3", STREET, "Bond Street", StreetInfo(Green, [31, 32, 34], 320, 28, 56, 150, 450, 1000, 1200, 1400, 200, 200, 160, 176)),  // 34
    FieldRecord("railroad_4", RAILROAD, "Liverpool St. Station", TieredInfo([5, 15, 25, 35], 200, [25, 50, 100, 200], 100, 110)),  // 35
    FieldRecord("chance_3", CHANCE, "Chance", NoInfo),  // 36
    FieldRecord("dark_blue_1", STREET, "Park Lane", StreetInfo(DBlue, [37, 39], 350, 35, 70, 175, 500, 1100, 1300, 1500, 200, 200, 175, 193)),  // 37
    FieldRecord("tax_2", TAX, "Super Tax", TaxInfo(100)),  // 38
    FieldRecord("dark_blue_2", STREET, "Mayfair", StreetInfo(DBlue, [37, 39], 400, 50, 100, 200, 600, 1400, 1700, 2000, 200, 200, 200, 220)),  // 39
    FieldRecord("jail", JAIL, "Jail", NoInfo)  // 40
  ]

  /** Positions of the squares the turn logic names. */
  lemma LandmarkFields()
    ensures |FIELDS| == 41
    ensures FIELDS[0].ftype == GO && FIELDS[0].key == "go"
    ensures FIELDS[10].ftype == JUST_VISITING && FIELDS[10].key == "just_visiting"
    ensures FIELDS[20].ftype == FREE_PARKING && FIELDS[20].key == "free_parking"
    ensures FIELDS[30].ftype == GO_TO_JAIL && FIELDS[30].key == "go_to_jail"
    ensures FIELDS[40].ftype == JAIL && FIELDS[40].key == "jail"
  {
  }

  /** Every record's type is a base member, and its category-specific part fits the type. */
  lemma RecordsFitTheirType()
    ensures forall i :: 0 <= i < |FIELDS| ==> IsBaseType(FIELDS[i].ftype)
    ensures forall i :: 0 <= i < |FIELDS| ==>
      (FIELDS[i].data.StreetInfo? <==> FIELDS[i].ftype == STREET) &&
      (FIELDS[i].data.TieredInfo? <==> FIELDS[i].ftype == RAILROAD || FIELDS[i].ftype == UTILITY) &&
      (FIELDS[i].data.TaxInfo? <==> FIELDS[i].ftype == TAX)
  {
  }

  /** Street rent tiers: the full-set rent doubles the base rent, and the tiers strictly rise. */
  lemma StreetTiers()
    ensures forall i :: 0 <= i < |FIELDS| && FIELDS[i].data.StreetInfo? ==>
      var s := FIELDS[i].data;
      s.doubleRent == 2 * s.rent &&
      0 < s.rent < s.house1 < s.house2 < s.house3 < s.house4 < s.hotel
  {
  }

  /** Railroads charge 25/50/100/200 and utilities multiply the roll by 4/10. */
  lemma TieredRents()
    ensures forall i :: 0 <= i < |FIELDS| && FIELDS[i].ftype == RAILROAD ==>
      FIELDS[i].data.rents == [25, 50, 100, 200]
    ensures forall i :: 0 <= i < |FIELDS| && FIELDS[i].ftype == UTILITY ==>
      FIELDS[i].data.rents == [4, 10]
  {
  }

  /** The positions of the railroads, of the utilities and of the card squares. */
  lemma Railroads()
    ensures forall i :: 0 <= i < |FIELDS| ==> (FIELDS[i].ftype == RAILROAD <==> i == 5 || i == 15 || i == 25 || i == 35)
  {
  }

  lemma Utilities()
    ensures forall i :: 0 <= i < |FIELDS| ==> (FIELDS[i].ftype == UTILITY <==> i == 12 || i == 28)
  {
  }

  lemma CardSquares()
    ensures forall i :: 0 <= i < |FIELDS| ==> (FIELDS[i].ftype == CC <==> i == 2 || i == 17 || i == 33)
    ensures forall i :: 0 <= i < |FIELDS| ==> (FIELDS[i].ftype == CHANCE <==> i == 7 || i == 22 || i == 36)
  {
  }

  /** The mortgage value of every property is half its price. */
  lemma MortgageIsHalfPrice()
    ensures forall i :: 0 <= i < |FIELDS| && FIELDS[i].data.StreetInfo? ==>
      FIELDS[i].data.mortgageValue == FIELDS[i].data.price / 2
    ensures forall i :: 0 <= i < |FIELDS| && FIELDS[i].data.TieredInfo? ==>
      FIELDS[i].data.mortgageValue == FIELDS[i].data.price / 2
  {
  }

  predicate IsPropertyRecord(r: FieldRecord) {
    r.data.StreetInfo? || r.data.TieredInfo?
  }

  /** The grouping invariant of the table, which the rent rules rely on: every property lists
      itself in its set, every member of a set is a property listing the same set, no set
      lists a position twice, and railroads and utilities have one rent tier per set member. */
  ghost predicate WellGrouped(t: seq<FieldRecord>)
  {
    (forall i :: 0 <= i < |t| && IsPropertyRecord(t[i]) ==> i in t[i].data.fullSet) &&
    (forall i, k :: 0 <= i < |t| && IsPropertyRecord(t[i]) && 0 <= k < |t[i].data.fullSet| ==>
       SetMemberAgrees(t, i, t[i].data.fullSet[k])) &&
    (forall i :: 0 <= i < |t| && IsPropertyRecord(t[i]) ==> NoRepeats(t[i].data.fullSet)) &&
    (forall i :: 0 <= i < |t| && t[i].data.TieredInfo? ==> |t[i].data.rents| == |t[i].data.fullSet|)
  }

  ghost predicate SetMemberAgrees(t: seq<FieldRecord>, i: nat, j: nat)
    requires i < |t| && IsPropertyRecord(t[i])
  {
    j < |t| && IsPropertyRecord(t[j]) && t[j].data.fullSet == t[i].data.fullSet
  }

  predicate NoRepeats(s: seq<nat>) {
    forall k, m :: 0 <= k < m < |s| ==> s[k] != s[m]
  }

  lemma FieldsListThemselves()
    ensures forall i :: 0 <= i < |FIELDS| && IsPropertyRecord(FIELDS[i]) ==> i in FIELDS[i].data.fullSet
  {
  }

  lemma FieldsSetsAgree()
    ensures forall i, k :: 0 <= i < |FIELDS| && IsPropertyRecord(FIELDS[i]) && 0 <= k < |FIELDS[i].data.fullSet| ==>
      SetMemberAgrees(FIELDS, i, FIELDS[i].data.fullSet[k])
  {
    forall i | 0 <= i < |FIELDS| && IsPropertyRecord(FIELDS[i])
      ensures forall k :: 0 <= k < |FIELDS[i].data.fullSet| ==> SetMemberAgrees(FIELDS, i, FIELDS[i].data.fullSet[k])
    {
    }
  }

  lemma FieldsSetsDistinct()
    ensures forall i :: 0 <= i < |FIELDS| && IsPropertyRecord(FIELDS[i]) ==> NoRepeats(FIELDS[i].data.fullSet)
  {
    forall i | 0 <= i < |FIELDS| && IsPropertyRecord(FIELDS[i]) ensures NoRepeats(FIELDS[i].data.fullSet) {
    }
  }

  lemma FieldsWellGrouped()
    ensures WellGrouped(FIELDS)
  {
    FieldsListThemselves();
    FieldsSetsAgree();
    FieldsSetsDistinct();
  }
}
