/** The command-line crossbreed script: after predicting both parents it looks
    the ordered pair up in a cross-info table, then the reversed pair, then
    falls back to a default record. */
module PredictCross {
  import opened StaticData
  import opened CrossbreedApi

  /** The record used when neither orientation of the pair is stored. */
  function DefaultInfo(aName: string, bName: string): (r: Record)
    ensures r.Keys == {"parents", "estimated_milk_yield_l_per_year", "disease_resistance", "calf_size",
                       "calf_temperament", "recommended_use_case", "notes"}
    ensures r["parents"] == Strs([aName, bName])
    ensures r["estimated_milk_yield_l_per_year"] == Null
    ensures r["disease_resistance"] == r["calf_size"] == r["calf_temperament"] == Str("Unknown")
    ensures r["recommended_use_case"] == Str("General dairy")
    ensures r["notes"] == Str("No static mapping available for this parent pair.")
  {
    map[
      "parents" := Strs([aName, bName]),
      "estimated_milk_yield_l_per_year" := Null,
      "disease_resistance" := Str("Unknown"),
      "calf_size" := Str("Unknown"),
      "calf_temperament" := Str("Unknown"),
      "recommended_use_case" := Str("General dairy"),
      "notes" := Str("No static mapping available for this parent pair.")]
  }

  /** The `key1` / `key2` / default selection. The keys are the same
      `"<a> x <b>"` strings the backend reports as the cross name. */
  function CrossInfo(table: map<string, Record>, aName: string, bName: string): (r: Record)
    ensures CrossName(aName, bName) in table ==> r == table[CrossName(aName, bName)]
    ensures CrossName(aName, bName) !in table && CrossName(bName, aName) in table ==>
      r == table[CrossName(bName, aName)]
    ensures CrossName(aName, bName) !in table && CrossName(bName, aName) !in table ==>
      r == DefaultInfo(aName, bName)
  {
    var key1 := CrossName(aName, bName);
    var key2 := CrossName(bName, aName);
    if key1 in table then table[key1]
    else if key2 in table then table[key2]
    else DefaultInfo(aName, bName)
  }

  /** A stored record is found in whichever order the parents come, as long as
      only one orientation of the pair is stored. */
  lemma CrossInfoSymmetric(table: map<string, Record>, aName: string, bName: string)
    requires !(CrossName(aName, bName) in table && CrossName(bName, aName) in table)
    requires CrossName(aName, bName) in table || CrossName(bName, aName) in table
    ensures CrossInfo(table, aName, bName) == CrossInfo(table, bName, aName)
  {
  }

  /** With both orientations stored, the order given wins: each order gets its
      own record. */
  lemma CrossInfoPrefersGivenOrder(table: map<string, Record>, aName: string, bName: string)
    requires CrossName(aName, bName) in table && CrossName(bName, aName) in table
    ensures CrossInfo(table, aName, bName) == table[CrossName(aName, bName)]
    ensures CrossInfo(table, bName, aName) == table[CrossName(bName, aName)]
  {
  }

  /** The default record keeps the parents in the order given, so swapping
      two unmapped parents swaps them in the record and changes nothing else. */
  lemma DefaultInfoSwap(aName: string, bName: string)
    ensures DefaultInfo(bName, aName) == DefaultInfo(aName, bName)["parents" := Strs([bName, aName])]
  {
  }
}
