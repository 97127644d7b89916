/** Reading the played moves out of the move list: every `.main-line-ply` element becomes
    one notation string. The same loop appears twice in main.js, once in `start()` and
    once in the observer callback, and the two copies differ in one place. */
module Extraction {

  import opened Wrappers
  import opened JsText

  /** The `.icon-font-chess` element inside a ply. `figurine` is its `data-figurine`
      attribute; None is the null `getAttribute` returns when the attribute is absent. */
  datatype Icon = Icon(figurine: Option<string>)

  /** One `.main-line-ply` element: its optional icon child and its `innerText`. */
  datatype Ply = Ply(icon: Option<Icon>, innerText: string)

  /** Which copy of the loop runs: the one in `start()` or the one in the observer callback. */
  datatype Pass = Initial | Observer

  /** The icon's `data-figurine` is truthy in JavaScript: present and not empty. */
  predicate HasFigurine(p: Ply) {
    p.icon.Some? && p.icon.value.figurine.Some? && p.icon.value.figurine.value != ""
  }

  /** The notation of one ply, or None when `querySelector` found no icon and the
      following `getAttribute` call dereferences null. */
  function Notation(p: Ply, pass: Pass): (r: Option<string>)
    ensures r.None? <==> p.icon.None?
    // a truthy figurine is written before the trimmed text, whichever loop runs
    ensures r.Some? && HasFigurine(p) ==> r.value == p.icon.value.figurine.value + Trim(p.innerText)
    // otherwise `start()` keeps the text as it is, and the observer trims it
    ensures r.Some? && !HasFigurine(p) && pass == Initial ==> r.value == p.innerText
    ensures r.Some? && !HasFigurine(p) && pass == Observer ==> r.value == Trim(p.innerText) && IsTrimmed(r.value)
  {
    if p.icon.None? then None
    else if HasFigurine(p) then Some(p.icon.value.figurine.value + Trim(p.innerText))
    else if pass == Initial then Some(p.innerText)
    else Some(Trim(p.innerText))
  }

  /** The `for ... of` loop over the plies. It either builds the whole move list or
      throws on the first ply without an icon, and then no list exists at all. */
  function Extract(plies: seq<Ply>, pass: Pass): (r: Option<seq<string>>)
    ensures r.Some? <==> forall i :: 0 <= i < |plies| ==> plies[i].icon.Some?
    ensures r.Some? ==> |r.value| == |plies|
  {
    if plies == [] then Some([])
    else
      assert forall i :: 1 <= i < |plies| ==> plies[1..][i - 1] == plies[i];
      match Notation(plies[0], pass)
      case None => None
      case Some(n) =>
        match Extract(plies[1..], pass)
        case None => None
        case Some(rest) => Some([n] + rest)
  }

  /** A successful extraction is the first ply's notation followed by the rest's. */
  lemma ExtractCons(plies: seq<Ply>, pass: Pass)
    requires plies != [] && forall j :: 0 <= j < |plies| ==> plies[j].icon.Some?
    ensures Extract(plies, pass).value
            == [Notation(plies[0], pass).value] + Extract(plies[1..], pass).value
  {
  }

  /** Past the first ply, index `i` of the list is index `i - 1` of the tail's list. */
  lemma ExtractShift(plies: seq<Ply>, pass: Pass, i: int)
    requires forall j :: 0 <= j < |plies| ==> plies[j].icon.Some?
    requires 0 < i < |plies|
    ensures forall j :: 0 <= j < |plies[1..]| ==> plies[1..][j].icon.Some?
    ensures plies[1..][i - 1] == plies[i]
    ensures Extract(plies, pass).value[i] == Extract(plies[1..], pass).value[i - 1]
  {
    assert forall j :: 0 <= j < |plies[1..]| ==> plies[1..][j] == plies[j + 1];
    ExtractCons(plies, pass);
  }

  /** The i-th extracted notation is the notation of the i-th ply. */
  lemma {:induction false} ExtractAt(plies: seq<Ply>, pass: Pass, i: int)
    requires forall j :: 0 <= j < |plies| ==> plies[j].icon.Some?
    requires 0 <= i < |plies|
    ensures Notation(plies[i], pass) == Some(Extract(plies, pass).value[i])
  {
    if i == 0 {
      ExtractCons(plies, pass);
    } else {
      ExtractShift(plies, pass, i);
      ExtractAt(plies[1..], pass, i - 1);
    }
  }

  /** The i-th extracted notation comes from the i-th ply: the figurine followed by the
      trimmed text when the figurine is truthy, and otherwise the text, left untrimmed
      by `start()` and trimmed by the observer. */
  lemma ExtractPointwise(plies: seq<Ply>, pass: Pass, i: int)
    requires forall j :: 0 <= j < |plies| ==> plies[j].icon.Some?
    requires 0 <= i < |plies|
    ensures var p := plies[i];
            var n := Extract(plies, pass).value[i];
            && (HasFigurine(p) ==> n == p.icon.value.figurine.value + Trim(p.innerText))
            && (!HasFigurine(p) && pass == Initial ==> n == p.innerText)
            && (!HasFigurine(p) && pass == Observer ==> n == Trim(p.innerText))
  {
    ExtractAt(plies, pass, i);
  }

  /** The two copies of the loop treat one ply alike exactly when it has no icon, has a
      truthy figurine, or has text without edge whitespace. */
  lemma NotationPassesAgree(p: Ply)
    ensures Notation(p, Initial) == Notation(p, Observer)
            <==> p.icon.None? || HasFigurine(p) || IsTrimmed(p.innerText)
  {
    TrimFixesTrimmed(p.innerText);
  }

  /** The two copies of the loop agree on a move list exactly when every ply either has a
      truthy figurine or has text with no leading or trailing whitespace. */
  lemma PassesAgreeIff(plies: seq<Ply>)
    requires forall i :: 0 <= i < |plies| ==> plies[i].icon.Some?
    ensures Extract(plies, Initial) == Extract(plies, Observer)
            <==> forall i :: 0 <= i < |plies| ==> HasFigurine(plies[i]) || IsTrimmed(plies[i].innerText)
  {
    var ini := Extract(plies, Initial).value;
    var obs := Extract(plies, Observer).value;
    forall i | 0 <= i < |plies|
      ensures ini[i] == obs[i] <==> HasFigurine(plies[i]) || IsTrimmed(plies[i].innerText)
    {
      ExtractAt(plies, Initial, i);
      ExtractAt(plies, Observer, i);
      NotationPassesAgree(plies[i]);
    }
    if forall i :: 0 <= i < |plies| ==> HasFigurine(plies[i]) || IsTrimmed(plies[i].innerText) {
      assert ini == obs;
    }
  }
}
