/** JSON documents as the two sides of the engine protocol see them once parsed. */
module JsonValues {

  import opened Wrappers

  /** A parsed JSON value. Numbers are split the way Python's json module splits
      them: integral literals become `int`, the others `float`. */
  datatype Json =
    | JNull
    | JBool(b: bool)
    | JInt(i: int)
    | JFloat(f: real)
    | JStr(s: string)
    | JArr(items: seq<Json>)
    | JObj(fields: map<string, Json>)

  /** The JSON array of strings that `JSON.stringify` writes for an array of strings. */
  function JStrings(ss: seq<string>): (js: seq<Json>)
    ensures |js| == |ss|
    ensures forall i :: 0 <= i < |ss| ==> js[i] == JStr(ss[i])
  {
    seq(|ss|, i requires 0 <= i < |ss| => JStr(ss[i]))
  }

  /** Reads an array of JSON strings back; None when some element is not a string. */
  function AsStrings(js: seq<Json>): (r: Option<seq<string>>)
    ensures r.Some? <==> forall i :: 0 <= i < |js| ==> js[i].JStr?
    ensures r.Some? ==> |r.value| == |js| && forall i :: 0 <= i < |js| ==> js[i] == JStr(r.value[i])
  {
    if js == [] then Some([])
    else if !js[0].JStr? then None
    else match AsStrings(js[1..])
      case None => None
      case Some(rest) => Some([js[0].s] + rest)
  }

  /** A move list written as JSON strings reads back as exactly that list, and only
      that list writes to those JSON values. */
  lemma StringsRoundTrip(ss: seq<string>, js: seq<Json>)
    ensures AsStrings(JStrings(ss)) == Some(ss)
    ensures AsStrings(js).Some? ==> JStrings(AsStrings(js).value) == js
  {
    var back := AsStrings(JStrings(ss));
    assert back.value == ss;
  }
}
