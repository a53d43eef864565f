/** JSON values as they travel between the server and the browser. A JSON
    object is a map from keys to values; key order is not modelled. */
module Json {

  datatype JValue = JStr(s: string) | JInt(i: int)

  type Obj = map<string, JValue>

  /** `o.status === s` in the browser, or `o["status"] == s` in Python. */
  predicate HasStatus(o: Obj, s: string) {
    "status" in o && o["status"] == JStr(s)
  }

  /** Every number in the object lies within `lo..hi`. */
  predicate IntsWithin(o: Obj, lo: int, hi: int) {
    forall key :: key in o && o[key].JInt? ==> lo <= o[key].i <= hi
  }
}
