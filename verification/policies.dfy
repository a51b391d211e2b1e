/**
 * The five policies most DEFAULTS entries use: each reads the umbrella flag
 * `all` (undefined, true, false or anything else) and the `forToString` mode.
 */
module Policies {
  import opened Wrappers
  import opened Values

  datatype Policy = NormalOn | NormalOff | OnForToString | OffForToString | AutoForToString

  /**
   * The value a policy gives a key. Whenever `all` is a boolean, every policy
   * returns it; otherwise the two mode-dependent policies follow the mode in
   * opposite directions, and only AUTO_FOR_TO_STRING can produce "auto".
   */
  function PolicyValue(p: Policy, all: Option<Value>, forToString: bool): (r: Value)
    ensures IsBool(all) ==> r == all.value
    ensures !IsBool(all) && p == NormalOn ==> r == Bool(true)
    ensures !IsBool(all) && p == NormalOff ==> r == Bool(false)
    ensures !IsBool(all) && p == OnForToString ==> r == Bool(forToString)
    ensures !IsBool(all) && p == OffForToString ==> r == Bool(!forToString)
    ensures !IsBool(all) && p == AutoForToString ==> r == (if forToString then Str("auto") else Bool(true))
    ensures r == Str("auto") <==> p == AutoForToString && !IsBool(all) && forToString
    ensures r.Bool? || r == Str("auto")
  {
    var isFalse := all == Some(Bool(false));
    var isTrue := all == Some(Bool(true));
    match p
    case NormalOn => Bool(!isFalse)
    case NormalOff => Bool(isTrue)
    case OnForToString => Bool(if forToString then !isFalse else isTrue)
    case OffForToString => Bool(if forToString then isTrue else !isFalse)
    case AutoForToString =>
      if isFalse then Bool(false)
      else if isTrue then Bool(true)
      else if forToString then Str("auto")
      else Bool(true)
  }

  /** ON_FOR_TO_STRING and OFF_FOR_TO_STRING are each other's mode-swap. */
  lemma OnOffAreModeSwapped(all: Option<Value>, forToString: bool)
    ensures PolicyValue(OnForToString, all, forToString) == PolicyValue(OffForToString, all, !forToString)
  {
  }
}
