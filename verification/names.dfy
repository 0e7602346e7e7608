/** "Is every required name available?" — the search both bootstrap variants
    run over extension and layer names. A name matches an available entry
    when the two strings are equal (`strcmp(...) == 0`). */
module NameLists {
  import opened Common

  /** The name lookup with early exit: scans `needed` from the front and
      stops at the first name that is not available. */
  function AllFound(needed: seq<string>, available: seq<string>): (r: bool)
    ensures r <==> forall i :: 0 <= i < |needed| ==> needed[i] in available
  {
    if |needed| == 0 then true
    else if needed[0] !in available then false
    else AllFound(needed[1..], available)
  }

  /** The first needed name that is not available, if any: the name the
      throwing variants put into their error message. */
  function FirstMissing(needed: seq<string>, available: seq<string>): (r: Option<string>)
    ensures r.None? <==> forall i :: 0 <= i < |needed| ==> needed[i] in available
    ensures r.Some? ==>
      exists k :: 0 <= k < |needed| && needed[k] == r.value && r.value !in available
        && forall j :: 0 <= j < k ==> needed[j] in available
  {
    if |needed| == 0 then None
    else if needed[0] !in available then Some(needed[0])
    else
      var rest := FirstMissing(needed[1..], available);
      if rest.Some? then
        ghost var k :| 0 <= k < |needed[1..]| && needed[1..][k] == rest.value && rest.value !in available
          && forall j :: 0 <= j < k ==> needed[1..][j] in available;
        assert needed[k + 1] == rest.value;
        rest
      else rest
  }

  /** The boolean check and the throwing check agree: all names are found
      exactly when no name is missing. */
  lemma AllFoundIffNothingMissing(needed: seq<string>, available: seq<string>)
    ensures AllFound(needed, available) <==> FirstMissing(needed, available).None?
  {
  }
}
