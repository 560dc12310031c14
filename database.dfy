/**
 * The seed load table: one example load per U.S. state, built from a fixed
 * table of (state, origin city, destination, equipment, commodity) rows with
 * fixed integer formulas. Times are minutes after 2024-05-01 08:00.
 */
module Database {
  import opened Text
  import opened Ranking

  datatype SeedRow = SeedRow(state: string, city: string, destination: string, equipment: string, commodity: string)

  /** STATE_LOAD_DETAILS. */
  const StateLoadDetails: seq<SeedRow> := [
    SeedRow("AL", "Birmingham", "Charlotte, NC", "Flatbed", "Steel Beams"),
    SeedRow("AK", "Anchorage", "Seattle, WA", "Reefer", "Seafood"),
    SeedRow("AZ", "Phoenix", "Denver, CO", "Dry Van", "Consumer Goods"),
    SeedRow("AR", "Little Rock", "Memphis, TN", "Dry Van", "Paper Products"),
    SeedRow("CA", "Los Angeles", "Portland, OR", "Dry Van", "Apparel"),
    SeedRow("CO", "Denver", "Salt Lake City, UT", "Reefer", "Fresh Produce"),
    SeedRow("CT", "Hartford", "Albany, NY", "Dry Van", "Medical Supplies"),
    SeedRow("DE", "Wilmington", "Baltimore, MD", "Dry Van", "Packaged Foods"),
    SeedRow("FL", "Miami", "Atlanta, GA", "Reefer", "Frozen Foods"),
    SeedRow("GA", "Savannah", "Birmingham, AL", "Flatbed", "Lumber"),
    SeedRow("HI", "Honolulu", "Los Angeles, CA", "Reefer", "Processed Foods"),
    SeedRow("ID", "Boise", "Spokane, WA", "Dry Van", "Paper Products"),
    SeedRow("IL", "Chicago", "Detroit, MI", "Flatbed", "Machinery"),
    SeedRow("IN", "Indianapolis", "Columbus, OH", "Dry Van", "Automotive Parts"),
    SeedRow("IA", "Des Moines", "Minneapolis, MN", "Dry Van", "Agricultural Supplies"),
    SeedRow("KS", "Wichita", "Oklahoma City, OK", "Flatbed", "Construction Materials"),
    SeedRow("KY", "Louisville", "St. Louis, MO", "Reefer", "Beverages"),
    SeedRow("LA", "New Orleans", "Houston, TX", "Flatbed", "Petrochemical Equipment"),
    SeedRow("ME", "Portland", "Boston, MA", "Dry Van", "Seafood"),
    SeedRow("MD", "Baltimore", "Newark, NJ", "Dry Van", "Consumer Packaged Goods"),
    SeedRow("MA", "Boston", "Manchester, NH", "Dry Van", "Pharmaceuticals"),
    SeedRow("MI", "Detroit", "Cleveland, OH", "Flatbed", "Steel Coils"),
    SeedRow("MN", "Minneapolis", "Milwaukee, WI", "Reefer", "Processed Foods"),
    SeedRow("MS", "Jackson", "Baton Rouge, LA", "Dry Van", "Paper Products"),
    SeedRow("MO", "St. Louis", "Kansas City, KS", "Flatbed", "Industrial Equipment"),
    SeedRow("MT", "Billings", "Fargo, ND", "Flatbed", "Oilfield Supplies"),
    SeedRow("NE", "Omaha", "Sioux Falls, SD", "Dry Van", "Food Ingredients"),
    SeedRow("NV", "Las Vegas", "Phoenix, AZ", "Dry Van", "Electronics"),
    SeedRow("NH", "Manchester", "Hartford, CT", "Dry Van", "Medical Devices"),
    SeedRow("NJ", "Newark", "Buffalo, NY", "Dry Van", "Packaged Foods"),
    SeedRow("NM", "Albuquerque", "Tulsa, OK", "Flatbed", "Construction Materials"),
    SeedRow("NY", "Albany", "Pittsburgh, PA", "Dry Van", "Paper Goods"),
    SeedRow("NC", "Charlotte", "Columbia, SC", "Dry Van", "Textiles"),
    SeedRow("ND", "Fargo", "Billings, MT", "Flatbed", "Agricultural Machinery"),
    SeedRow("OH", "Columbus", "Nashville, TN", "Power Only", "Empty Trailers"),
    SeedRow("OK", "Oklahoma City", "Dallas, TX", "Flatbed", "Oilfield Equipment"),
    SeedRow("OR", "Portland", "Boise, ID", "Dry Van", "Wood Products"),
    SeedRow("PA", "Philadelphia", "Richmond, VA", "Dry Van", "Retail Goods"),
    SeedRow("RI", "Providence", "Hartford, CT", "Dry Van", "Office Supplies"),
    SeedRow("SC", "Columbia", "Savannah, GA", "Dry Van", "Automotive Components"),
    SeedRow("SD", "Sioux Falls", "Omaha, NE", "Reefer", "Dairy Products"),
    SeedRow("TN", "Nashville", "Indianapolis, IN", "Dry Van", "Music Equipment"),
    SeedRow("TX", "Dallas", "Little Rock, AR", "Dry Van", "Consumer Goods"),
    SeedRow("UT", "Salt Lake City", "Reno, NV", "Flatbed", "Mining Equipment"),
    SeedRow("VT", "Burlington", "Albany, NY", "Dry Van", "Maple Products"),
    SeedRow("VA", "Richmond", "Raleigh, NC", "Dry Van", "Furniture"),
    SeedRow("WA", "Seattle", "Boise, ID", "Dry Van", "Paper Products"),
    SeedRow("WV", "Charleston", "Lexington, KY", "Dry Van", "Chemicals"),
    SeedRow("WI", "Milwaukee", "Chicago, IL", "Reefer", "Cheese"),
    SeedRow("WY", "Cheyenne", "Denver, CO", "Flatbed", "Mining Supplies")
  ]

  datatype Load = Load(
    loadId: string,
    origin: string,
    destination: string,
    pickup: nat,
    delivery: nat,
    equipmentType: string,
    loadboardRate: real,
    notes: string,
    weight: int,
    commodityType: string,
    numOfPieces: nat,
    miles: nat,
    dimensions: string)

  const MinutesPerHour: nat := 60
  const MinutesPerDay: nat := 24 * MinutesPerHour

  /** DIMENSIONS_BY_EQUIPMENT.get(equipment, "53ft trailer"). */
  function Dimensions(equipment: string): string {
    if equipment == "Dry Van" then "53ft dry van"
    else if equipment == "Reefer" then "53ft refrigerated trailer"
    else if equipment == "Flatbed" then "48ft flatbed"
    else if equipment == "Power Only" then "Sleeper tractor"
    else "53ft trailer"
  }

  /** EQUIPMENT_NOTES.get(equipment, "No special handling required."). */
  function EquipmentNote(equipment: string): string {
    if equipment == "Dry Van" then "Standard dock pickup with palletized freight."
    else if equipment == "Reefer" then "Maintain temperature setpoint throughout transit."
    else if equipment == "Flatbed" then "Straps and edge protectors provided with load."
    else if equipment == "Power Only" then "Hook and go \U{2014} trailer ready at shipper."
    else "No special handling required."
  }

  const TeamTransitNote := " Team transit recommended for on-time delivery."

  /** f"L-{2000 + index:04d}". */
  function LoadId(index: nat): string {
    "L-" + ZeroPad(NatToString(2000 + index), 4)
  }

  /** The load built for the row at 1-based position index. */
  function SeedLoad(index: nat, row: SeedRow): Load {
    var pickup := index * MinutesPerDay;
    var delivery := pickup + 2 * MinutesPerDay + (index % 5) * 3 * MinutesPerHour;
    var note := EquipmentNote(row.equipment) + " Departing " + row.city + ".";
    Load(
      loadId := LoadId(index),
      origin := row.city + ", " + row.state,
      destination := row.destination,
      pickup := pickup,
      delivery := delivery,
      equipmentType := row.equipment,
      loadboardRate := (1700 + 65 * index) as real,
      notes := if index % 7 == 0 then note + TeamTransitNote else note,
      weight := if row.equipment == "Power Only" then 18000 else 26000 + 450 * index,
      commodityType := row.commodity,
      numOfPieces := 10 + index % 12,
      miles := 300 + 22 * index,
      dimensions := Dimensions(row.equipment))
  }

  /** The loop of _build_seed_loads: one load per row, in order, numbered from 1. */
  method BuildLoads(rows: seq<SeedRow>) returns (loads: seq<Load>)
    ensures loads == Enumerate(rows, |rows|, SeedLoad)
  {
    loads := [];
    var index := 1;
    while index <= |rows|
      invariant 1 <= index <= |rows| + 1
      invariant loads == Enumerate(rows, index - 1, SeedLoad)
    {
      var load := SeedLoad(index, rows[index - 1]);
      loads := loads + [load];
      index := index + 1;
    }
  }

  /** _build_seed_loads: one load per row of STATE_LOAD_DETAILS, fifty in all. */
  method BuildSeedLoads() returns (loads: seq<Load>)
    ensures loads == Enumerate(StateLoadDetails, |StateLoadDetails|, SeedLoad)
    ensures |loads| == 50
  {
    loads := BuildLoads(StateLoadDetails);
    EnumerateAt(StateLoadDetails, |StateLoadDetails|, SeedLoad);
  }

  /** For the table's indices the id is "L-" and the four digits of 2000 + index. */
  lemma LoadIdDigits(index: nat)
    requires 1 <= index <= |StateLoadDetails|
    ensures LoadId(index) == "L-" + NatToString(2000 + index)
    ensures |LoadId(index)| == 6
  {
    FourDigits(2000 + index);
  }

  /** The fifty ids are pairwise distinct. */
  lemma LoadIdsDistinct(i: nat, j: nat)
    requires 1 <= i <= |StateLoadDetails| && 1 <= j <= |StateLoadDetails| && i != j
    ensures LoadId(i) != LoadId(j)
  {
    LoadIdDigits(i);
    LoadIdDigits(j);
    if LoadId(i) == LoadId(j) {
      assert NatToString(2000 + i) == LoadId(i)[2..];
      assert NatToString(2000 + j) == LoadId(j)[2..];
      NatToStringInjective(2000 + i, 2000 + j);
    }
  }

  /** Every seed load is delivered two days and up to twelve hours after it is picked up. */
  lemma SeedTimes(index: nat, row: SeedRow)
    ensures var load := SeedLoad(index, row);
      load.pickup == index * MinutesPerDay &&
      2 * MinutesPerDay <= load.delivery - load.pickup <= 2 * MinutesPerDay + 12 * MinutesPerHour &&
      load.delivery > load.pickup
  {
  }

  /** The numeric fields stay in their ranges: pieces 10..21, a positive rate and mileage. */
  lemma SeedRanges(index: nat, row: SeedRow)
    requires index >= 1
    ensures var load := SeedLoad(index, row);
      10 <= load.numOfPieces <= 21 && load.loadboardRate >= 1765.0 && load.miles >= 322 &&
      (load.weight == 18000 <==> row.equipment == "Power Only")
  {
  }

  /** The note is the equipment note and the departure city, plus the team-transit advice on every seventh index. */
  lemma SeedTeamNote(index: nat, row: SeedRow)
    ensures var base := EquipmentNote(row.equipment) + " Departing " + row.city + ".";
      var notes := SeedLoad(index, row).notes;
      StartsWith(notes, base) &&
      (index % 7 == 0 ==> EndsWith(notes, TeamTransitNote) && |notes| == |base| + |TeamTransitNote|) &&
      (index % 7 != 0 ==> notes == base)
  {
    var base := EquipmentNote(row.equipment) + " Departing " + row.city + ".";
    var notes := SeedLoad(index, row).notes;
    if index % 7 == 0 {
      assert notes[..|base|] == base;
      assert notes[|notes| - |TeamTransitNote|..] == TeamTransitNote;
    }
  }

  /** Equipment the tables do not name gets the default dimensions and the default note. */
  lemma UnmappedEquipmentDefaults(index: nat, row: SeedRow)
    requires row.equipment != "Dry Van" && row.equipment != "Reefer"
    requires row.equipment != "Flatbed" && row.equipment != "Power Only"
    ensures SeedLoad(index, row).dimensions == "53ft trailer"
    ensures EquipmentNote(row.equipment) == "No special handling required."
    ensures SeedLoad(index, row).weight == 26000 + 450 * index
  {
  }
}
